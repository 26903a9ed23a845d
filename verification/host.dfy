/** The host as the adapter sees it: opaque handles, the suite calls the
    adapter issues, the host-side state those calls read and write, and the
    plugin's own heap that holds per-instance data.

    The host is abstract. Every call is appended to `log`; the status of a
    call is whatever `status` says given the calls made before it, and the
    handles a call hands back are whatever `issue` says. A successful write
    call stores its value in a slot and a read call sees what the slot holds,
    or the value Rust initialised the out-parameter with when the host never
    wrote one. */
module Host {
  import opened Results
  import opened CStrings

  /** An opaque host handle, suite table address or plugin pointer. */
  type Handle = nat

  const Null: Handle := 0

  /** Floating-point protocol values: carried through, never computed with. */
  type Time = real

  datatype RectD = RectD(x1: real, y1: real, x2: real, y2: real)

  datatype RectI = RectI(x1: int, y1: int, x2: int, y2: int)

  const ZeroRect := RectI(0, 0, 0, 0)

  datatype SuiteName =
    | ImageEffectSuite
    | PropertySuite
    | ParameterSuite
    | MemorySuite
    | MultiThreadSuite
    | MessageSuite
    | ProgressSuite
    | TimeLineSuite
    | ParametricParameterSuite
    | ImageEffectOpenGLRenderSuite

  /** A suite name together with the version asked of `fetchSuite`. */
  datatype SuiteId = SuiteId(name: SuiteName, version: int)

  /** The property names the core reads or writes itself. */
  datatype PropName = InstanceData | ImageBounds | ImageRowBytes | ImageData

  /** The parameter kinds `paramDefine` is asked for. */
  datatype ParamType = Double | Integer | Boolean | String | Group | Page | PushButton | Choice

  /** A piece of host-side state that a call reads or writes. */
  datatype Slot =
    | ParamValue(param: Handle, time: Option<Time>)
    | Property(props: Handle, prop: PropName, index: int)
    | AbortFlag(effect: Handle)

  /** One call into the host, with the arguments it was given. Calls that
      take an optional time stand for both the plain and the `AtTime` suite
      function. Names are the NUL-terminated buffers passed to the host. */
  datatype Call =
    | FetchSuite(suite: SuiteId)
    | ParamGetValue(param: Handle, time: Option<Time>)
    | ParamSetInt(param: Handle, time: Option<Time>, i: int)
    | ParamSetString(param: Handle, time: Option<Time>, buf: seq<byte>)
    | ClipGetImage(clip: Handle, at: Time, region: Option<RectD>)
    | ClipLoadTexture(clip: Handle, at: Time, region: Option<RectD>)
    | ClipReleaseImage(image: Handle)
    | ClipFreeTexture(image: Handle)
    | GetPropertySet(effect: Handle)
    | GetParamSet(effect: Handle)
    | ClipGetHandle(effect: Handle, name: seq<byte>)
    | ClipDefine(effect: Handle, name: seq<byte>)
    | ParamDefine(paramSet: Handle, kind: ParamType, name: seq<byte>)
    | ParamGetHandle(paramSet: Handle, name: seq<byte>)
    | PropGetIntN(props: Handle, prop: PropName)
    | PropGetInt(props: Handle, prop: PropName, index: int)
    | PropGetPointer(props: Handle, prop: PropName, index: int)
    | PropSetPointer(props: Handle, prop: PropName, index: int, ptr: Handle)
    | Abort(effect: Handle)

  predicate IsWrite(c: Call) {
    c.ParamSetInt? || c.ParamSetString? || c.PropSetPointer?
  }

  datatype Host = Host(
    status: (seq<Call>, Call) -> Status,
    issue: (seq<Call>, Call) -> (Handle, Handle),
    ints: map<Slot, int>,
    strings: map<Slot, seq<byte>>,
    pointers: map<Slot, Handle>,
    rects: map<Slot, RectI>,
    log: seq<Call>)

  /** The host's state apart from its log. */
  predicate SameSlots(h: Host, h': Host) {
    h'.ints == h.ints && h'.strings == h.strings && h'.pointers == h.pointers && h'.rects == h.rects
  }

  /** The status the host reports for `c` issued now. */
  function StatusOf(h: Host, c: Call): Status {
    h.status(h.log, c)
  }

  /** The handles the host hands back for `c` issued now. */
  function Issued(h: Host, c: Call): (Handle, Handle) {
    h.issue(h.log, c)
  }

  /** The host after receiving `c`: the call is logged and a successful write
      stores its value; nothing else changes. */
  function Receive(h: Host, c: Call): (h': Host)
    ensures h'.log == h.log + [c]
    ensures !IsWrite(c) || StatusOf(h, c) != OK ==> SameSlots(h, h')
    ensures c.ParamSetInt? && StatusOf(h, c) == OK ==>
              h'.ints == h.ints[ParamValue(c.param, c.time) := c.i]
              && h'.strings == h.strings && h'.pointers == h.pointers
    ensures c.ParamSetString? && StatusOf(h, c) == OK ==>
              h'.strings == h.strings[ParamValue(c.param, c.time) := CStrContents(c.buf)]
              && h'.ints == h.ints && h'.pointers == h.pointers
    ensures c.PropSetPointer? && StatusOf(h, c) == OK ==>
              h'.pointers == h.pointers[Property(c.props, c.prop, c.index) := c.ptr]
              && h'.ints == h.ints && h'.strings == h.strings
  {
    var logged := h.(log := h.log + [c]);
    if StatusOf(h, c) != OK then logged
    else
      match c
      case ParamSetInt(p, t, i) => logged.(ints := h.ints[ParamValue(p, t) := i])
      case ParamSetString(p, t, buf) => logged.(strings := h.strings[ParamValue(p, t) := CStrContents(buf)])
      case PropSetPointer(props, name, index, ptr) =>
        logged.(pointers := h.pointers[Property(props, name, index) := ptr])
      case _ => logged
  }

  /** The integer a read call leaves in its out-parameter (initialised to 0). */
  function ReadInt(h: Host, s: Slot): int {
    if s in h.ints then h.ints[s] else 0
  }

  /** The string pointer a read call leaves: `None` is the null pointer. */
  function ReadString(h: Host, s: Slot): Option<seq<byte>> {
    if s in h.strings then Some(h.strings[s]) else None
  }

  /** The pointer a read call leaves (initialised to null). */
  function ReadPointer(h: Host, s: Slot): Handle {
    if s in h.pointers then h.pointers[s] else Null
  }

  function ReadRect(h: Host, s: Slot): RectI {
    if s in h.rects then h.rects[s] else ZeroRect
  }

  /** The result of an operation on the host, with the host after it. */
  datatype Step<+T> = Step(result: Result<T>, host: Host)

  /** A suite call whose only output is its status (`suite_fn!`). */
  function Invoke(h: Host, c: Call): (r: Step<()>)
    ensures r.host == Receive(h, c)
    ensures r.result.Ok? <==> StatusOf(h, c) == OK
    ensures r.result.Err? ==> r.result.error == HostFailure(StatusOf(h, c))
  {
    Step(Check(StatusOf(h, c)), Receive(h, c))
  }

  /** Instance-data payloads are opaque to the adapter. */
  type Payload = int

  /** The plugin's heap, as far as boxed instance data is concerned.
      Addresses are never reused; `invalidFrees` records every release of an
      address that was not live (a double free or a wild free). */
  datatype Heap = Heap(live: map<Handle, Payload>, freed: set<Handle>, next: Handle, invalidFrees: seq<Handle>) {

    ghost predicate Valid() {
      && next > 0
      && (forall p | p in live :: 0 < p < next)
      && (forall p | p in freed :: 0 < p < next)
      && live.Keys !! freed
    }
  }

  const EmptyHeap := Heap(map[], {}, 1, [])

  /** `Box::into_raw(Box::new(v))`: a fresh, non-null address holding `v`. */
  function Alloc(hp: Heap, v: Payload): (r: (Handle, Heap))
    requires hp.Valid()
    ensures r.0 != Null && r.0 !in hp.live && r.0 !in hp.freed
    ensures r.1.live == hp.live[r.0 := v] && r.1.freed == hp.freed
    ensures r.1.invalidFrees == hp.invalidFrees
    ensures r.1.Valid()
  {
    (hp.next, hp.(live := hp.live[hp.next := v], next := hp.next + 1))
  }

  /** Dropping `Box::from_raw(p)`: a live address is released; any other
      address is an invalid free. */
  function Free(hp: Heap, p: Handle): (r: Heap)
    ensures hp.Valid() ==> r.Valid()
    ensures p in hp.live ==> r.live == hp.live - {p} && r.freed == hp.freed + {p}
                             && r.invalidFrees == hp.invalidFrees
    ensures p !in hp.live ==> r.live == hp.live && r.invalidFrees == hp.invalidFrees + [p]
  {
    if p in hp.live then hp.(live := hp.live - {p}, freed := hp.freed + {p})
    else hp.(invalidFrees := hp.invalidFrees + [p])
  }

  /** Everything a dispatched action can change: the host and the heap. */
  datatype World = World(host: Host, heap: Heap)
}
