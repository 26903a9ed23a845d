/** The protocol's action vocabulary: the tags the plugin registers, the
    token each one is named by, and the fixed argument signature of every
    action the mapper handles. */
module ActionNames {
  import opened Results
  import opened CStrings

  /** Actions named `OfxAction...`. */
  datatype GlobalAction =
    | Load
    | Describe
    | Unload
    | PurgeCaches
    | SyncPrivateData
    | CreateInstance
    | DestroyInstance
    | BeginInstanceChanged
    | InstanceChanged
    | EndInstanceChanged
    | BeginInstanceEdit
    | EndInstanceEdit
    | OpenGLContextAttached
    | OpenGLContextDetached
    | Dialog

  /** Actions named `OfxImageEffectAction...`. */
  datatype ImageEffectAction =
    | GetRegionOfDefinition
    | GetRegionsOfInterest
    | GetTimeDomain
    | GetFramesNeeded
    | GetClipPreferences
    | IsIdentity
    | BeginSequenceRender
    | Render
    | EndSequenceRender
    | DescribeInContext
    | GetInverseDistortion
    | InvokeHelp
    | InvokeAbout
    | VegasKeyframeUplift

  /** A registered tag from either index. */
  datatype ActionTag = Global(g: GlobalAction) | Effect(e: ImageEffectAction)

  function GlobalSuffix(a: GlobalAction): CText {
    match a
    case Load => "Load"
    case Describe => "Describe"
    case Unload => "Unload"
    case PurgeCaches => "PurgeCaches"
    case SyncPrivateData => "SyncPrivateData"
    case CreateInstance => "CreateInstance"
    case DestroyInstance => "DestroyInstance"
    case BeginInstanceChanged => "BeginInstanceChanged"
    case InstanceChanged => "InstanceChanged"
    case EndInstanceChanged => "EndInstanceChanged"
    case BeginInstanceEdit => "BeginInstanceEdit"
    case EndInstanceEdit => "EndInstanceEdit"
    case OpenGLContextAttached => "OpenGLContextAttached"
    case OpenGLContextDetached => "OpenGLContextDetached"
    case Dialog => "Dialog"
  }

  function EffectSuffix(a: ImageEffectAction): CText {
    match a
    case GetRegionOfDefinition => "GetRegionOfDefinition"
    case GetRegionsOfInterest => "GetRegionsOfInterest"
    case GetTimeDomain => "GetTimeDomain"
    case GetFramesNeeded => "GetFramesNeeded"
    case GetClipPreferences => "GetClipPreferences"
    case IsIdentity => "IsIdentity"
    case BeginSequenceRender => "BeginSequenceRender"
    case Render => "Render"
    case EndSequenceRender => "EndSequenceRender"
    case DescribeInContext => "DescribeInContext"
    case GetInverseDistortion => "GetInverseDistortion"
    case InvokeHelp => "InvokeHelp"
    case InvokeAbout => "InvokeAbout"
    case VegasKeyframeUplift => "VegasKeyframeUplift"
  }

  /** The text of a tag's action name, e.g. `OfxActionLoad`. */
  function TagText(t: ActionTag): CText {
    match t
    case Global(a) => "OfxAction" + GlobalSuffix(a)
    case Effect(a) => "OfxImageEffectAction" + EffectSuffix(a)
  }

  lemma GlobalSuffixInjective(a: GlobalAction, b: GlobalAction)
    ensures GlobalSuffix(a) == GlobalSuffix(b) ==> a == b
  {
  }

  lemma EffectSuffixInjective(a: ImageEffectAction, b: ImageEffectAction)
    ensures EffectSuffix(a) == EffectSuffix(b) ==> a == b
  {
  }

  /** The bytes of the action name the host passes to `mainEntry`. */
  function Token(t: ActionTag): (r: seq<byte>)
    ensures NoNul(r) && ValidUtf8(r)
  {
    Ascii(TagText(t))
  }

  /** The compiled-in constant (`kOfxAction...`, `kOfxImageEffectAction...`):
      the token followed by its NUL terminator. */
  function Constant(t: ActionTag): (r: seq<byte>)
    ensures r == Token(t) + [NUL]
  {
    CLiteral(TagText(t))
  }

  /** No two tags share a token. */
  lemma TokenInjective(s: ActionTag, t: ActionTag)
    ensures Token(s) == Token(t) ==> s == t
  {
    if Token(s) == Token(t) {
      AsciiInjective(TagText(s), TagText(t));
      TextInjective(s, t);
    }
  }

  /** The fourth character tells the two families apart. */
  lemma FamilyMark(t: ActionTag)
    ensures |TagText(t)| > 3 && TagText(t)[3] == (if t.Global? then 'A' else 'I')
  {
  }

  lemma TextInjective(s: ActionTag, t: ActionTag)
    requires TagText(s) == TagText(t)
    ensures s == t
  {
    FamilyMark(s);
    FamilyMark(t);
    var x := TagText(s);
    match (s, t)
    case (Global(a), Global(b)) =>
      assert GlobalSuffix(a) == x[9..] == GlobalSuffix(b);
      GlobalSuffixInjective(a, b);
    case (Effect(a), Effect(b)) =>
      assert EffectSuffix(a) == x[20..] == EffectSuffix(b);
      EffectSuffixInjective(a, b);
    case (_, _) =>
  }

  /** The order in which the descriptor registers the global actions. */
  const GlobalRegistrations: seq<GlobalAction> := [
    Load, Describe, Unload, PurgeCaches, SyncPrivateData, CreateInstance,
    DestroyInstance, BeginInstanceChanged, InstanceChanged, EndInstanceChanged,
    BeginInstanceEdit, EndInstanceEdit, OpenGLContextAttached,
    OpenGLContextDetached, Dialog
  ]

  /** The order in which the descriptor registers the image-effect actions. */
  const EffectRegistrations: seq<ImageEffectAction> := [
    GetRegionOfDefinition, GetRegionsOfInterest, GetTimeDomain, GetFramesNeeded,
    GetClipPreferences, IsIdentity, BeginSequenceRender, Render,
    EndSequenceRender, DescribeInContext, GetInverseDistortion, InvokeHelp,
    InvokeAbout, VegasKeyframeUplift
  ]

  function GlobalPosition(a: GlobalAction): (i: nat)
    ensures i < |GlobalRegistrations| && GlobalRegistrations[i] == a
  {
    match a
    case Load => 0
    case Describe => 1
    case Unload => 2
    case PurgeCaches => 3
    case SyncPrivateData => 4
    case CreateInstance => 5
    case DestroyInstance => 6
    case BeginInstanceChanged => 7
    case InstanceChanged => 8
    case EndInstanceChanged => 9
    case BeginInstanceEdit => 10
    case EndInstanceEdit => 11
    case OpenGLContextAttached => 12
    case OpenGLContextDetached => 13
    case Dialog => 14
  }

  function EffectPosition(a: ImageEffectAction): (i: nat)
    ensures i < |EffectRegistrations| && EffectRegistrations[i] == a
  {
    match a
    case GetRegionOfDefinition => 0
    case GetRegionsOfInterest => 1
    case GetTimeDomain => 2
    case GetFramesNeeded => 3
    case GetClipPreferences => 4
    case IsIdentity => 5
    case BeginSequenceRender => 6
    case Render => 7
    case EndSequenceRender => 8
    case DescribeInContext => 9
    case GetInverseDistortion => 10
    case InvokeHelp => 11
    case InvokeAbout => 12
    case VegasKeyframeUplift => 13
  }

  lemma RegistrationsComplete()
    ensures forall a: GlobalAction :: a in GlobalRegistrations
    ensures forall a: ImageEffectAction :: a in EffectRegistrations
  {
    forall a: GlobalAction
      ensures a in GlobalRegistrations
    {
      var i := GlobalPosition(a);
      assert GlobalRegistrations[i] == a;
    }
    forall a: ImageEffectAction
      ensures a in EffectRegistrations
    {
      var i := EffectPosition(a);
      assert EffectRegistrations[i] == a;
    }
  }

  /** The payload an action carries besides nothing at all. */
  datatype Shape =
    | NoPayload        // handled entirely by the library
    | HandleOnly       // the effect handle
    | InArgs           // the effect handle and typed in-arguments
    | OutArgs          // the effect handle and typed out-arguments
    | InAndOutArgs     // the effect handle, typed in- and out-arguments

  /** The fixed signature table: the shape of every action the mapper
      handles, `None` for tags that are registered but not handled. */
  function Signature(t: ActionTag): Option<Shape> {
    match t
    case Global(Load) => Some(NoPayload)
    case Global(Unload) => Some(NoPayload)
    case Global(Describe) => Some(HandleOnly)
    case Global(SyncPrivateData) => Some(HandleOnly)
    case Global(PurgeCaches) => Some(HandleOnly)
    case Global(CreateInstance) => Some(HandleOnly)
    case Global(DestroyInstance) => Some(HandleOnly)
    case Global(OpenGLContextAttached) => Some(HandleOnly)
    case Global(OpenGLContextDetached) => Some(HandleOnly)
    case Global(BeginInstanceChanged) => Some(InArgs)
    case Global(InstanceChanged) => Some(InArgs)
    case Global(EndInstanceChanged) => Some(InArgs)
    case Global(BeginInstanceEdit) => None
    case Global(EndInstanceEdit) => None
    case Global(Dialog) => None
    case Effect(DescribeInContext) => Some(InArgs)
    case Effect(BeginSequenceRender) => Some(InArgs)
    case Effect(Render) => Some(InArgs)
    case Effect(EndSequenceRender) => Some(InArgs)
    case Effect(GetRegionOfDefinition) => Some(InAndOutArgs)
    case Effect(GetRegionsOfInterest) => Some(InAndOutArgs)
    case Effect(IsIdentity) => Some(InAndOutArgs)
    case Effect(GetClipPreferences) => Some(OutArgs)
    case Effect(GetTimeDomain) => Some(OutArgs)
    case Effect(GetFramesNeeded) => None
    case Effect(GetInverseDistortion) => None
    case Effect(InvokeHelp) => None
    case Effect(InvokeAbout) => None
    case Effect(VegasKeyframeUplift) => None
  }

  /** The action whose token `name` is, image-effect actions taking
      precedence; `None` when `name` is no registered action's token. This is
      the specification the mapper's two-index lookup is proved against. */
  ghost function Resolve(name: seq<byte>): (r: Option<ActionTag>)
    ensures r.Some? ==> Token(r.value) == name
    ensures r.None? ==> forall t: ActionTag :: Token(t) != name
    ensures r.Some? && r.value.Global? ==> forall a: ImageEffectAction :: Token(Effect(a)) != name
  {
    if exists t: ActionTag :: t.Effect? && Token(t) == name then
      var t: ActionTag :| t.Effect? && Token(t) == name; Some(t)
    else if exists t: ActionTag :: Token(t) == name then
      var t: ActionTag :| Token(t) == name; Some(t)
    else None
  }
}
