/** `PluginDescriptor`: the per-plugin state the host's two entry points
    drive. `setHost` records the host; `mainEntry` maps an action name to a
    typed action, runs the before-hook, the plugin's own `execute` and the
    after-hook. */
module Plugin {
  import opened Results
  import opened CStrings
  import opened Host
  import opened Indexes
  import opened ActionNames
  import Suites
  import opened Handles

  /** `OfxPlugin`, the record the host reads to identify the plugin (its two
      entry-point pointers are not modelled). */
  datatype OfxPlugin = OfxPlugin(
    pluginApi: seq<byte>,
    apiVersion: int,
    pluginVersionMajor: nat,
    pluginVersionMinor: nat,
    pluginIdentifier: seq<byte>)

  datatype PluginDescriptor = PluginDescriptor(
    pluginId: seq<byte>,
    moduleName: Utf8,
    pluginIndex: nat,
    host: Option<Suites.HostDescriptor>,
    suites: Option<Suites.Suites>,
    cachedHandle: Option<EffectHandle>,
    globalIndex: EnumIndex<GlobalAction>,
    effectIndex: EnumIndex<ImageEffectAction>,
    ofxPlugin: OfxPlugin)

  /** `kOfxImageEffectPluginApi`. */
  const PluginApi: seq<byte> := CLiteral("OfxImageEffectPluginAPI")

  /** The (constant, tag) pairs the constructor registers, in its order. */
  function GlobalTable(): (regs: seq<(seq<byte>, GlobalAction)>)
    ensures |regs| == |GlobalRegistrations|
    ensures forall i | 0 <= i < |regs| :: regs[i] == (Constant(Global(GlobalRegistrations[i])), GlobalRegistrations[i])
  {
    seq(|GlobalRegistrations|, i requires 0 <= i < |GlobalRegistrations| =>
      (Constant(Global(GlobalRegistrations[i])), GlobalRegistrations[i]))
  }

  function EffectTable(): (regs: seq<(seq<byte>, ImageEffectAction)>)
    ensures |regs| == |EffectRegistrations|
    ensures forall i | 0 <= i < |regs| :: regs[i] == (Constant(Effect(EffectRegistrations[i])), EffectRegistrations[i])
  {
    seq(|EffectRegistrations|, i requires 0 <= i < |EffectRegistrations| =>
      (Constant(Effect(EffectRegistrations[i])), EffectRegistrations[i]))
  }

  function GlobalIndex(): EnumIndex<GlobalAction> {
    InsertAll(Empty(), GlobalTable())
  }

  function EffectIndex(): EnumIndex<ImageEffectAction> {
    InsertAll(Empty(), EffectTable())
  }

  function GlobalToken(a: GlobalAction): (r: seq<byte>)
    ensures NoNul(r) && ValidUtf8(r)
  {
    Token(Global(a))
  }

  function EffectToken(a: ImageEffectAction): (r: seq<byte>)
    ensures NoNul(r) && ValidUtf8(r)
  {
    Token(Effect(a))
  }

  /** Every entry of the global table is a token and its terminator, and
      every global action has an entry. */
  lemma GlobalTableShape()
    ensures forall i | 0 <= i < |GlobalTable()| :: GlobalTable()[i].0 == GlobalToken(GlobalTable()[i].1) + [NUL]
    ensures forall a :: Registered(GlobalTable(), a)
  {
    var regs := GlobalTable();
    forall a: GlobalAction
      ensures Registered(regs, a)
    {
      assert regs[GlobalPosition(a)].1 == a;
    }
  }

  lemma EffectTableShape()
    ensures forall i | 0 <= i < |EffectTable()| :: EffectTable()[i].0 == EffectToken(EffectTable()[i].1) + [NUL]
    ensures forall a :: Registered(EffectTable(), a)
  {
    var regs := EffectTable();
    forall a: ImageEffectAction
      ensures Registered(regs, a)
    {
      assert regs[EffectPosition(a)].1 == a;
    }
  }

  /** The global index finds exactly the `OfxAction...` tokens, each to its
      own action. */
  lemma GlobalIndexFinds(name: seq<byte>)
    ensures Find(GlobalIndex(), name).Some? <==> exists a :: GlobalToken(a) == name
    ensures Find(GlobalIndex(), name).Some? ==> GlobalToken(Find(GlobalIndex(), name).value) == name
  {
    GlobalTableShape();
    FindTokens(GlobalTable(), GlobalToken, name);
  }


  /** The image-effect index finds exactly the `OfxImageEffectAction...`
      tokens, each to its own action. */
  lemma EffectIndexFinds(name: seq<byte>)
    ensures Find(EffectIndex(), name).Some? <==> exists a :: EffectToken(a) == name
    ensures Find(EffectIndex(), name).Some? ==> EffectToken(Find(EffectIndex(), name).value) == name
  {
    EffectTableShape();
    FindTokens(EffectTable(), EffectToken, name);
  }


  /** The descriptor's indexes are the ones its constructor builds. */
  predicate IndexesBuilt(d: PluginDescriptor) {
    d.globalIndex == GlobalIndex() && d.effectIndex == EffectIndex()
  }

  /** The action of a family whose token `name` is, if any. */
  ghost function GlobalByToken(name: seq<byte>): (r: Option<GlobalAction>)
    ensures r.Some? ==> GlobalToken(r.value) == name
    ensures r.None? ==> forall a :: GlobalToken(a) != name
  {
    if exists a :: GlobalToken(a) == name then Some(var a :| GlobalToken(a) == name; a) else None
  }

  ghost function EffectByToken(name: seq<byte>): (r: Option<ImageEffectAction>)
    ensures r.Some? ==> EffectToken(r.value) == name
    ensures r.None? ==> forall a :: EffectToken(a) != name
  {
    if exists a :: EffectToken(a) == name then Some(var a :| EffectToken(a) == name; a) else None
  }

  /** What the two indexes do: each finds exactly its family's tokens, each
      to its own action. */
  ghost predicate Indexed(d: PluginDescriptor) {
    && (forall name :: Find(d.globalIndex, name) == GlobalByToken(name))
    && (forall name :: Find(d.effectIndex, name) == EffectByToken(name))
  }

  /** The constructor's indexes do that. */
  lemma BuiltIsIndexed(d: PluginDescriptor)
    requires IndexesBuilt(d)
    ensures Indexed(d)
  {
    forall name
      ensures Find(d.globalIndex, name) == GlobalByToken(name)
    {
      GlobalIndexFinds(name);
      var f := Find(d.globalIndex, name);
      var g := GlobalByToken(name);
      if f.Some? {
        TokenInjective(Global(f.value), Global(g.value));
      }
    }
    forall name
      ensures Find(d.effectIndex, name) == EffectByToken(name)
    {
      EffectIndexFinds(name);
      var f := Find(d.effectIndex, name);
      var g := EffectByToken(name);
      if f.Some? {
        TokenInjective(Effect(f.value), Effect(g.value));
      }
    }
  }

  /** `PluginDescriptor::new`: no host, no suites, no cached handle, and both
      action indexes filled. The identifier is the name with its terminator
      (`CString::new(name).unwrap()` panics on a NUL, so a name with one is
      not a valid argument). */
  function New(pluginIndex: nat, moduleName: Utf8, name: Utf8, apiVersion: int, major: nat, minor: nat): (d: PluginDescriptor)
    requires NoNul(name)
    ensures d.host.None? && d.suites.None? && d.cachedHandle.None?
    ensures IndexesBuilt(d)
    ensures FromBytesWithNul(d.pluginId) == Some(name) && d.ofxPlugin.pluginIdentifier == d.pluginId
    ensures d.ofxPlugin.pluginApi == PluginApi && d.ofxPlugin.apiVersion == apiVersion
    ensures d.ofxPlugin.pluginVersionMajor == major && d.ofxPlugin.pluginVersionMinor == minor
  {
    var id := CStringNew(name).value;
    PluginDescriptor(
      id, moduleName, pluginIndex, None, None, None, GlobalIndex(), EffectIndex(),
      OfxPlugin(PluginApi, apiVersion, major, minor, id))
  }

  // ---------------------------------------------------------------------
  // Actions

  /** What a mapped action carries besides its tag; the in- and out-argument
      property sets are typed by the tag. */
  datatype ActionArgs =
    | Bare
    | OnHandle(effect: EffectHandle)
    | WithIn(effect: EffectHandle, inArgs: PropertySet)
    | WithOut(effect: EffectHandle, outArgs: PropertySet)
    | WithInOut(effect: EffectHandle, inArgs: PropertySet, outArgs: PropertySet)

  datatype Action = Action(tag: ActionTag, args: ActionArgs)

  function ShapeOf(a: ActionArgs): Shape {
    match a
    case Bare => NoPayload
    case OnHandle(_) => HandleOnly
    case WithIn(_, _) => InArgs
    case WithOut(_, _) => OutArgs
    case WithInOut(_, _, _) => InAndOutArgs
  }

  /** `suites()`: the loaded suites, or `SuiteNotInitialized`. */
  function LoadedSuites(d: PluginDescriptor): (r: Result<Suites.Suites>)
    ensures r.Ok? <==> d.suites.Some?
    ensures r.Ok? ==> r.value == d.suites.value
    ensures r.Err? ==> r.error == SuiteNotInitialized
  {
    match d.suites
    case None => Err(SuiteNotInitialized)
    case Some(s) => Ok(s)
  }

  /** `new_image_effect`: wraps a handle with the loaded suites. */
  function NewImageEffect(d: PluginDescriptor, handle: Handle): (r: Result<EffectHandle>)
    ensures r.Ok? <==> d.suites.Some?
    ensures r.Err? ==> r.error == SuiteNotInitialized
    ensures r.Ok? ==> WrapsHandle(r.value, d.suites.value, handle)
  {
    var s :- LoadedSuites(d);
    Ok(EffectOf(s, handle))
  }

  /** The effect handle `new_image_effect` builds from loaded suites. */
  function EffectOf(s: Suites.Suites, handle: Handle): (eff: EffectHandle)
    ensures WrapsHandle(eff, s, handle)
  {
    EffectHandle(handle, s.property, s.imageEffect, s.imageEffectOpenGLRender, s.parameter)
  }

  /** An effect handle built from the loaded suites: it has the OpenGL-render
      suite exactly when the host provided one. */
  predicate WrapsHandle(eff: EffectHandle, s: Suites.Suites, handle: Handle) {
    && eff.inner == handle
    && eff.property == s.property
    && eff.imageEffect == s.imageEffect
    && eff.openGLRender == s.imageEffectOpenGLRender
    && eff.parameter == s.parameter
  }

  /** `typed_properties`: wraps a property set with the property suite. */
  function TypedProperties(d: PluginDescriptor, props: Handle): (r: Result<PropertySet>)
    ensures r.Ok? <==> d.suites.Some?
    ensures r.Err? ==> r.error == SuiteNotInitialized
    ensures r.Ok? ==> r.value == PropertySet(props, d.suites.value.property)
  {
    var s :- LoadedSuites(d);
    Ok(PropertySet(props, s.property))
  }

  /** The arguments carry the handles `mainEntry` was given, wrapped with the
      loaded suites. */
  predicate Carries(args: ActionArgs, s: Suites.Suites, handle: Handle, inArgs: Handle, outArgs: Handle) {
    match args
    case Bare => true
    case OnHandle(eff) => WrapsHandle(eff, s, handle)
    case WithIn(eff, i) => WrapsHandle(eff, s, handle) && i == PropertySet(inArgs, s.property)
    case WithOut(eff, o) => WrapsHandle(eff, s, handle) && o == PropertySet(outArgs, s.property)
    case WithInOut(eff, i, o) =>
      WrapsHandle(eff, s, handle) && i == PropertySet(inArgs, s.property) && o == PropertySet(outArgs, s.property)
  }

  /** `map_args!`: builds the action of the given shape. Every shape but the
      empty one needs the suites. */
  function MapArgs(d: PluginDescriptor, tag: ActionTag, shape: Shape, handle: Handle, inArgs: Handle, outArgs: Handle): (r: Result<Action>)
    ensures shape == NoPayload ==> r == Ok(Action(tag, Bare))
    ensures shape != NoPayload ==> (r.Ok? <==> d.suites.Some?)
    ensures r.Err? ==> r.error == SuiteNotInitialized
    ensures r.Ok? ==> r.value.tag == tag && ShapeOf(r.value.args) == shape
    ensures r.Ok? && shape != NoPayload ==> Carries(r.value.args, d.suites.value, handle, inArgs, outArgs)
  {
    match shape
    case NoPayload => Ok(Action(tag, Bare))
    case HandleOnly =>
      var eff :- NewImageEffect(d, handle);
      Ok(Action(tag, OnHandle(eff)))
    case InArgs =>
      var eff :- NewImageEffect(d, handle);
      // the suites are loaded, so the argument wrappers cannot fail
      Ok(Action(tag, WithIn(eff, TypedProperties(d, inArgs).value)))
    case OutArgs =>
      var eff :- NewImageEffect(d, handle);
      Ok(Action(tag, WithOut(eff, TypedProperties(d, outArgs).value)))
    case InAndOutArgs =>
      var eff :- NewImageEffect(d, handle);
      Ok(Action(tag, WithInOut(eff, TypedProperties(d, inArgs).value, TypedProperties(d, outArgs).value)))
  }

  /** The image-effect branch of `map_action`. */
  function MapEffectAction(d: PluginDescriptor, e: ImageEffectAction, handle: Handle, inArgs: Handle, outArgs: Handle): (r: Result<Action>)
    ensures r.Ok? ==> r.value.tag == Effect(e)
  {
    match e
    case DescribeInContext => MapArgs(d, Effect(e), InArgs, handle, inArgs, outArgs)
    case GetRegionOfDefinition => MapArgs(d, Effect(e), InAndOutArgs, handle, inArgs, outArgs)
    case GetRegionsOfInterest => MapArgs(d, Effect(e), InAndOutArgs, handle, inArgs, outArgs)
    case IsIdentity => MapArgs(d, Effect(e), InAndOutArgs, handle, inArgs, outArgs)
    case GetClipPreferences => MapArgs(d, Effect(e), OutArgs, handle, inArgs, outArgs)
    case GetTimeDomain => MapArgs(d, Effect(e), OutArgs, handle, inArgs, outArgs)
    case BeginSequenceRender => MapArgs(d, Effect(e), InArgs, handle, inArgs, outArgs)
    case Render => MapArgs(d, Effect(e), InArgs, handle, inArgs, outArgs)
    case EndSequenceRender => MapArgs(d, Effect(e), InArgs, handle, inArgs, outArgs)
    case _ => Err(InvalidAction)
  }

  /** The global branch of `map_action`. */
  function MapGlobalAction(d: PluginDescriptor, g: GlobalAction, handle: Handle, inArgs: Handle, outArgs: Handle): (r: Result<Action>)
    ensures r.Ok? ==> r.value.tag == Global(g)
  {
    match g
    case Load => Ok(Action(Global(g), Bare))
    case Unload => Ok(Action(Global(g), Bare))
    case Describe => MapArgs(d, Global(g), HandleOnly, handle, inArgs, outArgs)
    case SyncPrivateData => MapArgs(d, Global(g), HandleOnly, handle, inArgs, outArgs)
    case PurgeCaches => MapArgs(d, Global(g), HandleOnly, handle, inArgs, outArgs)
    case CreateInstance => MapArgs(d, Global(g), HandleOnly, handle, inArgs, outArgs)
    case OpenGLContextAttached => MapArgs(d, Global(g), HandleOnly, handle, inArgs, outArgs)
    case OpenGLContextDetached => MapArgs(d, Global(g), HandleOnly, handle, inArgs, outArgs)
    case BeginInstanceChanged => MapArgs(d, Global(g), InArgs, handle, inArgs, outArgs)
    case InstanceChanged => MapArgs(d, Global(g), InArgs, handle, inArgs, outArgs)
    case EndInstanceChanged => MapArgs(d, Global(g), InArgs, handle, inArgs, outArgs)
    case DestroyInstance => MapArgs(d, Global(g), HandleOnly, handle, inArgs, outArgs)
    case _ => Err(InvalidAction)
  }

  /** The mapping a signature calls for: unhandled is `InvalidAction`,
      otherwise the arguments of that shape. */
  function BySignature(d: PluginDescriptor, t: ActionTag, handle: Handle, inArgs: Handle, outArgs: Handle): Result<Action> {
    match Signature(t)
    case None => Err(InvalidAction)
    case Some(shape) => MapArgs(d, t, shape, handle, inArgs, outArgs)
  }

  /** Both branches of `map_action` follow the signature table. */
  lemma MapEffectActionFollowsSignature(d: PluginDescriptor, e: ImageEffectAction, handle: Handle, inArgs: Handle, outArgs: Handle)
    ensures MapEffectAction(d, e, handle, inArgs, outArgs) == BySignature(d, Effect(e), handle, inArgs, outArgs)
  {
    match e case _ =>
  }

  lemma MapGlobalActionFollowsSignature(d: PluginDescriptor, g: GlobalAction, handle: Handle, inArgs: Handle, outArgs: Handle)
    ensures MapGlobalAction(d, g, handle, inArgs, outArgs) == BySignature(d, Global(g), handle, inArgs, outArgs)
  {
    match g case _ =>
  }

  /** `map_action`: the name the host passes (up to its NUL) is looked up in
      the image-effect index first and in the global index only if that
      fails. */
  function MapAction(d: PluginDescriptor, action: seq<byte>, handle: Handle, inArgs: Handle, outArgs: Handle): (r: Result<Action>)
    ensures r.Ok? ==> Signature(r.value.tag) == Some(ShapeOf(r.value.args))
    ensures r.Ok? && !r.value.args.Bare? ==> d.suites.Some? && Carries(r.value.args, d.suites.value, handle, inArgs, outArgs)
    ensures r.Err? ==> r.error == InvalidAction || (r.error == SuiteNotInitialized && d.suites.None?)
  {
    var name := CStrContents(action);
    match Find(d.effectIndex, name)
    case Some(e) =>
      MapEffectActionFollowsSignature(d, e, handle, inArgs, outArgs);
      MapEffectAction(d, e, handle, inArgs, outArgs)
    case None =>
      match Find(d.globalIndex, name)
      case Some(g) =>
        MapGlobalActionFollowsSignature(d, g, handle, inArgs, outArgs);
        MapGlobalAction(d, g, handle, inArgs, outArgs)
      case None => Err(InvalidAction)
  }

  /** What `map_action` makes of a name, stated against the vocabulary:
      an unregistered name or a registered but unhandled action is
      `InvalidAction`; Load and Unload need nothing; every other action is
      `SuiteNotInitialized` until the suites are loaded, and otherwise
      carries the handles it was given in its fixed shape. */
  lemma MapActionResolves(d: PluginDescriptor, action: seq<byte>, handle: Handle, inArgs: Handle, outArgs: Handle)
    requires Indexed(d)
    ensures MapAction(d, action, handle, inArgs, outArgs)
            == match Resolve(CStrContents(action))
               case None => Err(InvalidAction)
               case Some(t) => BySignature(d, t, handle, inArgs, outArgs)
  {
    var name := CStrContents(action);
    MapsToResolved(d, name);
    match Resolve(name)
    case None =>
    case Some(t) =>
      match t
      case Effect(e) => MapEffectActionFollowsSignature(d, e, handle, inArgs, outArgs);
      case Global(g) => MapGlobalActionFollowsSignature(d, g, handle, inArgs, outArgs);
  }

  /** A buffer holding a tag's token, up to its NUL, is mapped by that tag's
      signature. */
  lemma MapsToken(d: PluginDescriptor, t: ActionTag, action: seq<byte>, handle: Handle, inArgs: Handle, outArgs: Handle)
    requires Indexed(d) && CStrContents(action) == Token(t)
    ensures MapAction(d, action, handle, inArgs, outArgs) == BySignature(d, t, handle, inArgs, outArgs)
  {
    ResolveToken(t);
    MapActionResolves(d, action, handle, inArgs, outArgs);
  }

  /** An action whose signature is the effect handle alone, once the suites
      are loaded, carries the handle wrapped with them. */
  lemma HandleOnlyMapping(d: PluginDescriptor, t: ActionTag, handle: Handle, inArgs: Handle, outArgs: Handle)
    requires Signature(t) == Some(HandleOnly) && d.suites.Some?
    ensures BySignature(d, t, handle, inArgs, outArgs) == Ok(Action(t, OnHandle(EffectOf(d.suites.value, handle))))
  {
  }

  /** With the constructor's indexes, the two lookups of `map_action` reach
      the tag `Resolve` names, through the branch of its family. */
  lemma MapsToResolved(d: PluginDescriptor, name: seq<byte>)
    requires Indexed(d)
    ensures match Resolve(name)
            case None => Find(d.effectIndex, name).None? && Find(d.globalIndex, name).None?
            case Some(Effect(e)) => Find(d.effectIndex, name) == Some(e)
            case Some(Global(g)) => Find(d.effectIndex, name).None? && Find(d.globalIndex, name) == Some(g)
  {
    var fe := Find(d.effectIndex, name);
    var fg := Find(d.globalIndex, name);
    assert fe == EffectByToken(name) && fg == GlobalByToken(name);
    assert fe.Some? ==> Token(Effect(fe.value)) == name;
    assert fg.Some? ==> Token(Global(fg.value)) == name;
    match Resolve(name)
    case None =>
    case Some(Effect(e)) =>
      assert EffectToken(e) == name;
      TokenInjective(Effect(fe.value), Effect(e));
    case Some(Global(g)) =>
      assert GlobalToken(g) == name;
      TokenInjective(Global(fg.value), Global(g));
  }



  /** The image-effect index is consulted first: a name it knows is mapped
      without looking at the global index at all. */
  lemma EffectIndexTakesPrecedence(d: PluginDescriptor, other: EnumIndex<GlobalAction>, action: seq<byte>, handle: Handle, inArgs: Handle, outArgs: Handle)
    requires Find(d.effectIndex, CStrContents(action)).Some?
    ensures MapAction(d, action, handle, inArgs, outArgs)
            == MapAction(d.(globalIndex := other), action, handle, inArgs, outArgs)
  {
  }

  // ---------------------------------------------------------------------
  // Hooks and dispatch

  /** A step of the descriptor: the result, the descriptor after it and what
      the host and the heap look like after it. */
  datatype Transition = Transition(result: Result<Status>, plugin: PluginDescriptor, world: World)

  /** `PluginContext`: the host's property set and the loaded suites, as the
      plugin's `execute` sees them. */
  datatype PluginContext = PluginContext(host: PropertySet, suites: Suites.Suites)

  /** What the plugin's `execute` leaves behind: its status, the action as it
      left it (it receives the action by mutable reference and may rewrite
      it) and the world. */
  datatype Executed = Executed(status: Result<Status>, action: Action, world: World)

  /** The plugin's own `execute`, supplied by plugin code the adapter does
      not see. */
  type Executor = (PluginContext, Action, World) -> Executed

  /** `before_execute`: Load runs `load`, Describe caches the handle, every
      other action (Unload included) passes. */
  function BeforeExecute(d: PluginDescriptor, action: Action, w: World): (r: Transition)
    ensures r.plugin == d.(suites := r.plugin.suites, cachedHandle := r.plugin.cachedHandle)
    ensures r.plugin.suites != d.suites ==> d.host.Some? && r.plugin.suites.Some?
    ensures r.result.Ok? ==> r.result.value == OK
    ensures action.tag != Global(Load) ==> r.result == Ok(OK) && r.world == w
    ensures action.tag != Global(Load) && action.tag != Global(Describe) ==> r.plugin == d
    ensures action.tag == Global(Describe) && action.args.OnHandle? ==>
              r.plugin == d.(cachedHandle := Some(action.args.effect))
    ensures action.tag == Global(Load) ==>
              var l := Suites.Load(d.host, w.host);
              && r.world == w.(host := l.host)
              && (l.result.Err? ==> r.result == Err(l.result.error) && r.plugin == d)
              && (l.result.Ok? ==> r.result == Ok(OK) && r.plugin == d.(suites := Some(l.result.value)))
  {
    match action.tag
    case Global(Load) =>
      var l := Suites.Load(d.host, w.host);
      (match l.result
       case Err(e) => Transition(Err(e), d, w.(host := l.host))
       case Ok(s) => Transition(Ok(OK), d.(suites := Some(s)), w.(host := l.host)))
    case Global(Describe) =>
      (match action.args
       case OnHandle(eff) => Transition(Ok(OK), d.(cachedHandle := Some(eff)), w)
       case _ => Transition(Ok(OK), d, w))
    case _ => Transition(Ok(OK), d, w)
  }

  /** `after_execute`: DestroyInstance drops the instance data, whatever
      `execute` returned; nothing else does anything. */
  function AfterExecute(action: Action, w: World): (r: Outcome<()>)
    ensures action.tag == Global(DestroyInstance) && action.args.OnHandle? ==>
              r == DropInstanceData(action.args.effect, w)
    ensures !(action.tag == Global(DestroyInstance) && action.args.OnHandle?) ==> r == Outcome(Ok(()), w)
  {
    match action.args
    case OnHandle(eff) =>
      if action.tag == Global(DestroyInstance) then DropInstanceData(eff, w) else Outcome(Ok(()), w)
    case _ => Outcome(Ok(()), w)
  }

  /** The messages the host sends: `setHost` and `mainEntry`. */
  datatype RawMessage =
    | SetHost(hostDesc: Suites.HostDescriptor)
    | MainEntry(action: seq<byte>, handle: Handle, inArgs: Handle, outArgs: Handle)

  /** `dispatch`. */
  function Dispatch(d: PluginDescriptor, msg: RawMessage, execute: Executor, w: World): (r: Transition)
    ensures msg.SetHost? ==> r == Transition(Ok(OK), d.(host := Some(msg.hostDesc)), w)
    ensures msg.MainEntry? && MapAction(d, msg.action, msg.handle, msg.inArgs, msg.outArgs).Err? ==>
              r == Transition(Err(MapAction(d, msg.action, msg.handle, msg.inArgs, msg.outArgs).error), d, w)
    ensures r.plugin.globalIndex == d.globalIndex && r.plugin.effectIndex == d.effectIndex
    ensures r.plugin.pluginId == d.pluginId && r.plugin.ofxPlugin == d.ofxPlugin
  {
    match msg
    case SetHost(hd) => Transition(Ok(OK), d.(host := Some(hd)), w)
    case MainEntry(name, handle, inArgs, outArgs) =>
      match MapAction(d, name, handle, inArgs, outArgs)
      case Err(e) => Transition(Err(e), d, w)
      case Ok(action) => Run(d, action, execute, w)
  }

  /** The part of `mainEntry` after mapping: the before-hook's error is
      returned at once; `execute` and the after-hook run only when both the
      host and the suites are there, the after-hook on the action as
      `execute` left it, and then the result is `execute`'s unless the
      after-hook fails. */
  function Run(d: PluginDescriptor, action: Action, execute: Executor, w: World): (r: Transition)
    ensures var b := BeforeExecute(d, action, w);
            && r.plugin == b.plugin
            && (b.result.Err? ==> r.result == b.result && r.world == b.world)
            && (b.result.Ok? && (b.plugin.host.None? || b.plugin.suites.None?) ==>
                  r.result == Ok(OK) && r.world == b.world)
            && (b.result.Ok? && b.plugin.host.Some? && b.plugin.suites.Some? ==>
                  var ctx := PluginContext(PropertySet(b.plugin.host.value.host, b.plugin.suites.value.property),
                                           b.plugin.suites.value);
                  var ex := execute(ctx, action, b.world);
                  var a := AfterExecute(ex.action, ex.world);
                  && r.world == a.world
                  && r.result == (if a.result.Err? then Err(a.result.error) else ex.status))
  {
    var b := BeforeExecute(d, action, w);
    if b.result.Err? then b
    else
      var d1 := b.plugin;
      match (d1.host, d1.suites)
      case (Some(hd), Some(s)) =>
        var ctx := PluginContext(PropertySet(hd.host, s.property), s);
        var ex := execute(ctx, action, b.world);
        var a := AfterExecute(ex.action, ex.world);
        if a.result.Err? then Transition(Err(a.result.error), d1, a.world)
        else Transition(ex.status, d1, a.world)
      case _ => Transition(Ok(OK), d1, b.world)
  }

  // ---------------------------------------------------------------------
  // Properties of the state machine

  /** The descriptor's invariant: the indexes are the constructor's, and
      suites are only ever loaded from a recorded host. */
  ghost predicate Valid(d: PluginDescriptor) {
    Indexed(d) && (d.suites.Some? ==> d.host.Some?)
  }

  lemma NewIsValid(pluginIndex: nat, moduleName: Utf8, name: Utf8, apiVersion: int, major: nat, minor: nat)
    requires NoNul(name)
    ensures Valid(New(pluginIndex, moduleName, name, apiVersion, major, minor))
  {
    BuiltIsIndexed(New(pluginIndex, moduleName, name, apiVersion, major, minor));
  }

  /** Every message keeps the invariant. */
  lemma DispatchKeepsValid(d: PluginDescriptor, msg: RawMessage, execute: Executor, w: World)
    requires Valid(d)
    ensures Valid(Dispatch(d, msg, execute, w).plugin)
  {
    if msg.MainEntry? {
      var m := MapAction(d, msg.action, msg.handle, msg.inArgs, msg.outArgs);
      if m.Ok? {
        var b := BeforeExecute(d, m.value, w);
        assert Dispatch(d, msg, execute, w).plugin == b.plugin;
      }
    }
  }


  lemma ResolveToken(t: ActionTag)
    ensures Resolve(Token(t)) == Some(t)
  {
    TokenInjective(Resolve(Token(t)).value, t);
  }

  /** The compiled-in constant of a tag holds its token. */
  lemma ConstantHoldsToken(t: ActionTag)
    ensures CStrContents(Constant(t)) == Token(t)
  {
    CStrContentsOfCString(Token(t));
  }

  /** `mainEntry` with a buffer holding the token of `t`: the mapping its
      signature calls for, and on success the rest of the entry point. */
  lemma DispatchToken(d: PluginDescriptor, t: ActionTag, action: seq<byte>, handle: Handle, inArgs: Handle, outArgs: Handle, execute: Executor, w: World)
    requires Indexed(d) && CStrContents(action) == Token(t)
    ensures Dispatch(d, MainEntry(action, handle, inArgs, outArgs), execute, w)
            == match BySignature(d, t, handle, inArgs, outArgs)
               case Err(e) => Transition(Err(e), d, w)
               case Ok(a) => Run(d, a, execute, w)
  {
    MapsToken(d, t, action, handle, inArgs, outArgs);
  }

  /** Before Load, any action that needs an effect handle fails with
      `SuiteNotInitialized`, touching neither the descriptor nor the host. */
  lemma ActionBeforeLoadFails(d: PluginDescriptor, t: ActionTag, action: seq<byte>, handle: Handle, inArgs: Handle, outArgs: Handle, execute: Executor, w: World)
    requires Indexed(d) && d.suites.None?
    requires CStrContents(action) == Token(t)
    requires Signature(t).Some? && Signature(t) != Some(NoPayload)
    ensures Dispatch(d, MainEntry(action, handle, inArgs, outArgs), execute, w)
            == Transition(Err(SuiteNotInitialized), d, w)
  {
    DispatchToken(d, t, action, handle, inArgs, outArgs, execute, w);
    NeedsSuites(d, t, handle, inArgs, outArgs);
  }

  /** Before Load, the signature of an action that carries an effect handle
      cannot be met. */
  lemma NeedsSuites(d: PluginDescriptor, t: ActionTag, handle: Handle, inArgs: Handle, outArgs: Handle)
    requires d.suites.None?
    requires Signature(t).Some? && Signature(t) != Some(NoPayload)
    ensures BySignature(d, t, handle, inArgs, outArgs) == Err(SuiteNotInitialized)
  {
  }

  /** Unload needs neither host nor suites: the before-hook passes it and,
      before Load, `execute` is not reached and nothing changes. */
  lemma UnloadBeforeLoadPasses(d: PluginDescriptor, action: seq<byte>, handle: Handle, inArgs: Handle, outArgs: Handle, execute: Executor, w: World)
    requires Indexed(d) && d.suites.None?
    requires CStrContents(action) == Token(Global(Unload))
    ensures Dispatch(d, MainEntry(action, handle, inArgs, outArgs), execute, w)
            == Transition(Ok(OK), d, w)
  {
    DispatchToken(d, Global(Unload), action, handle, inArgs, outArgs, execute, w);
    RunWithoutSuites(d, Action(Global(Unload), Bare), execute, w);
  }

  /** Before Load, an action other than Load passes the before-hook and stops
      there. */
  lemma RunWithoutSuites(d: PluginDescriptor, a: Action, execute: Executor, w: World)
    requires d.suites.None? && a.tag != Global(Load) && a.tag != Global(Describe)
    ensures Run(d, a, execute, w) == Transition(Ok(OK), d, w)
  {
  }

  /** Load: without a host it is `HostNotReady`; with a host that lacks a
      required suite it is `InvalidSuite`; either way the suites stay as
      they were and `execute` is not reached unless they were loaded
      already. With a complete host the suites are what it provides. */
  lemma LoadTransition(d: PluginDescriptor, action: seq<byte>, handle: Handle, inArgs: Handle, outArgs: Handle, execute: Executor, w: World)
    requires Valid(d)
    requires CStrContents(action) == Token(Global(Load))
    ensures var r := Dispatch(d, MainEntry(action, handle, inArgs, outArgs), execute, w);
            && (d.host.None? || d.host.value.fetchSuite.None? ==>
                  r.result == Err(HostNotReady) && r.plugin == d && r.world == w)
            && (d.host.Some? && d.host.value.fetchSuite.Some? ==>
                  var table := d.host.value.fetchSuite.value;
                  && (!Suites.ProvidesRequired(table) ==> r.result == Err(InvalidSuite) && r.plugin == d)
                  && (Suites.ProvidesRequired(table) ==>
                        r.plugin.suites.Some? && Suites.HoldsFetched(r.plugin.suites.value, table)))
  {
    DispatchToken(d, Global(Load), action, handle, inArgs, outArgs, execute, w);
    RunLoad(d, execute, w);
  }

  lemma RunLoad(d: PluginDescriptor, execute: Executor, w: World)
    requires d.suites.Some? ==> d.host.Some?
    ensures var r := Run(d, Action(Global(Load), Bare), execute, w);
            && (d.host.None? || d.host.value.fetchSuite.None? ==>
                  r.result == Err(HostNotReady) && r.plugin == d && r.world == w)
            && (d.host.Some? && d.host.value.fetchSuite.Some? ==>
                  var table := d.host.value.fetchSuite.value;
                  && (!Suites.ProvidesRequired(table) ==> r.result == Err(InvalidSuite) && r.plugin == d)
                  && (Suites.ProvidesRequired(table) ==>
                        r.plugin.suites.Some? && Suites.HoldsFetched(r.plugin.suites.value, table)))
  {
  }

  /** Describe, once the suites are loaded, caches the effect handle it was
      given. */
  lemma DescribeCachesHandle(d: PluginDescriptor, action: seq<byte>, handle: Handle, inArgs: Handle, outArgs: Handle, execute: Executor, w: World)
    requires Valid(d) && d.suites.Some?
    requires CStrContents(action) == Token(Global(Describe))
    ensures var r := Dispatch(d, MainEntry(action, handle, inArgs, outArgs), execute, w);
            r.plugin.cachedHandle.Some? && WrapsHandle(r.plugin.cachedHandle.value, d.suites.value, handle)
  {
    DispatchToken(d, Global(Describe), action, handle, inArgs, outArgs, execute, w);
    HandleOnlyMapping(d, Global(Describe), handle, inArgs, outArgs);
  }

  /** DestroyInstance: after `execute`, the after-hook drops the instance
      data of the effect handle the action then carries, whether or not
      `execute` succeeded, and the result is `execute`'s unless the drop
      fails. If `execute` rewrote the action into another one, nothing is
      dropped and its result stands. */
  lemma DestroyDropsInstanceData(d: PluginDescriptor, action: seq<byte>, handle: Handle, inArgs: Handle, outArgs: Handle, execute: Executor, w: World)
    requires Valid(d) && d.suites.Some?
    requires CStrContents(action) == Token(Global(DestroyInstance))
    ensures var s := d.suites.value;
            var ctx := PluginContext(PropertySet(d.host.value.host, s.property), s);
            var ex := execute(ctx, Action(Global(DestroyInstance), OnHandle(EffectOf(s, handle))), w);
            var r := Dispatch(d, MainEntry(action, handle, inArgs, outArgs), execute, w);
            && r.plugin == d
            && (ex.action.tag == Global(DestroyInstance) && ex.action.args.OnHandle? ==>
                  var drop := DropInstanceData(ex.action.args.effect, ex.world);
                  && r.world == drop.world
                  && r.result == (if drop.result.Err? then Err(drop.result.error) else ex.status))
            && (!(ex.action.tag == Global(DestroyInstance) && ex.action.args.OnHandle?) ==>
                  r == Transition(ex.status, d, ex.world))
  {
    DispatchToken(d, Global(DestroyInstance), action, handle, inArgs, outArgs, execute, w);
    HandleOnlyMapping(d, Global(DestroyInstance), handle, inArgs, outArgs);
    RunDestroy(d, EffectOf(d.suites.value, handle), execute, w);
  }

  lemma RunDestroy(d: PluginDescriptor, eff: EffectHandle, execute: Executor, w: World)
    requires d.host.Some? && d.suites.Some?
    ensures var s := d.suites.value;
            var ctx := PluginContext(PropertySet(d.host.value.host, s.property), s);
            var ex := execute(ctx, Action(Global(DestroyInstance), OnHandle(eff)), w);
            var a := AfterExecute(ex.action, ex.world);
            Run(d, Action(Global(DestroyInstance), OnHandle(eff)), execute, w)
            == Transition(if a.result.Err? then Err(a.result.error) else ex.status, d, a.world)
  {
    assert BeforeExecute(d, Action(Global(DestroyInstance), OnHandle(eff)), w) == Transition(Ok(OK), d, w);
  }
}
