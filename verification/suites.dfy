/** The suite table and the loader that fills it on the Load action. */
module Suites {
  import opened Results
  import opened Host

  /** The fetched suite tables, by address. Required suites are always
      present once loaded; optional ones may be absent. */
  datatype Suites = Suites(
    imageEffect: Handle,
    property: Handle,
    parameter: Handle,
    memory: Handle,
    multiThread: Handle,
    message: Handle,
    messageV2: Option<Handle>,
    progress: Handle,
    progressV2: Option<Handle>,
    timeLine: Handle,
    parametricParameter: Option<Handle>,
    imageEffectOpenGLRender: Option<Handle>)

  /** `OfxHost`: the host's own property set and its `fetchSuite` function,
      given as the tables it hands out (a missing or null entry is a null
      result). `fetchSuite` itself may be missing. */
  datatype HostDescriptor = HostDescriptor(host: Handle, fetchSuite: Option<map<SuiteId, Handle>>)

  /** One request the loader makes, and whether a null answer is fatal. */
  datatype Request = Request(suite: SuiteId, required: bool)

  /** The loader's requests, in the order it makes them. */
  const LoadOrder: seq<Request> := [
    Request(SuiteId(ImageEffectSuite, 1), true),
    Request(SuiteId(PropertySuite, 1), true),
    Request(SuiteId(ParameterSuite, 1), true),
    Request(SuiteId(MemorySuite, 1), true),
    Request(SuiteId(MultiThreadSuite, 1), true),
    Request(SuiteId(MessageSuite, 1), true),
    Request(SuiteId(MessageSuite, 2), false),
    Request(SuiteId(ProgressSuite, 1), true),
    Request(SuiteId(ProgressSuite, 2), false),
    Request(SuiteId(TimeLineSuite, 1), true),
    Request(SuiteId(ParametricParameterSuite, 1), false),
    Request(SuiteId(ImageEffectOpenGLRenderSuite, 1), false)
  ]

  /** What `fetchSuite` answers: a table address, `None` for null. */
  function Fetch(table: map<SuiteId, Handle>, id: SuiteId): Option<Handle> {
    if id in table && table[id] != Null then Some(table[id]) else None
  }

  predicate Missing(table: map<SuiteId, Handle>, r: Request) {
    r.required && Fetch(table, r.suite).None?
  }

  /** The `fetchSuite` calls for a list of requests. */
  function Requests(reqs: seq<Request>): (calls: seq<Call>)
    ensures |calls| == |reqs|
    ensures forall i | 0 <= i < |reqs| :: calls[i] == FetchSuite(reqs[i].suite)
  {
    seq(|reqs|, i requires 0 <= i < |reqs| => FetchSuite(reqs[i].suite))
  }

  /** The first required request the host cannot answer, if any: where the
      loader's chain of `?` stops. */
  function FirstMissing(table: map<SuiteId, Handle>, reqs: seq<Request>): (k: Option<nat>)
    ensures k.None? <==> forall i | 0 <= i < |reqs| :: !Missing(table, reqs[i])
    ensures k.Some? ==> && k.value < |reqs|
                        && Missing(table, reqs[k.value])
                        && forall j | 0 <= j < k.value :: !Missing(table, reqs[j])
    decreases |reqs|
  {
    if |reqs| == 0 then None
    else if Missing(table, reqs[0]) then Some(0)
    else
      var rest := FirstMissing(table, reqs[1..]);
      assert forall j | 1 <= j < |reqs| :: reqs[j] == reqs[1..][j - 1];
      match rest
      case None => None
      case Some(k) => Some(k + 1)
  }

  /** `s` holds exactly the tables `fetchSuite` hands out for the loader's
      requests: every required one, and each optional one if not null. */
  predicate HoldsFetched(s: Suites, table: map<SuiteId, Handle>) {
    && Some(s.imageEffect) == Fetch(table, SuiteId(ImageEffectSuite, 1))
    && Some(s.property) == Fetch(table, SuiteId(PropertySuite, 1))
    && Some(s.parameter) == Fetch(table, SuiteId(ParameterSuite, 1))
    && Some(s.memory) == Fetch(table, SuiteId(MemorySuite, 1))
    && Some(s.multiThread) == Fetch(table, SuiteId(MultiThreadSuite, 1))
    && Some(s.message) == Fetch(table, SuiteId(MessageSuite, 1))
    && s.messageV2 == Fetch(table, SuiteId(MessageSuite, 2))
    && Some(s.progress) == Fetch(table, SuiteId(ProgressSuite, 1))
    && s.progressV2 == Fetch(table, SuiteId(ProgressSuite, 2))
    && Some(s.timeLine) == Fetch(table, SuiteId(TimeLineSuite, 1))
    && s.parametricParameter == Fetch(table, SuiteId(ParametricParameterSuite, 1))
    && s.imageEffectOpenGLRender == Fetch(table, SuiteId(ImageEffectOpenGLRenderSuite, 1))
  }

  /** The host can provide every required suite. */
  predicate ProvidesRequired(table: map<SuiteId, Handle>) {
    forall i | 0 <= i < |LoadOrder| :: !Missing(table, LoadOrder[i])
  }

  /** A host that provides every required suite answers each of them. */
  lemma RequiredPresent(table: map<SuiteId, Handle>)
    requires ProvidesRequired(table)
    ensures Fetch(table, SuiteId(ImageEffectSuite, 1)).Some?
    ensures Fetch(table, SuiteId(PropertySuite, 1)).Some?
    ensures Fetch(table, SuiteId(ParameterSuite, 1)).Some?
    ensures Fetch(table, SuiteId(MemorySuite, 1)).Some?
    ensures Fetch(table, SuiteId(MultiThreadSuite, 1)).Some?
    ensures Fetch(table, SuiteId(MessageSuite, 1)).Some?
    ensures Fetch(table, SuiteId(ProgressSuite, 1)).Some?
    ensures Fetch(table, SuiteId(TimeLineSuite, 1)).Some?
  {
    assert !Missing(table, LoadOrder[0]) && !Missing(table, LoadOrder[1]);
    assert !Missing(table, LoadOrder[2]) && !Missing(table, LoadOrder[3]);
    assert !Missing(table, LoadOrder[4]) && !Missing(table, LoadOrder[5]);
    assert !Missing(table, LoadOrder[7]) && !Missing(table, LoadOrder[9]);
  }

  /** The requests `load` makes of a host that has `fetchSuite`: a missing
      required suite is `InvalidSuite`, and no request follows it; otherwise
      every request is made and the suites are those the host provides. */
  function FetchSuites(table: map<SuiteId, Handle>, h: Host): (r: Step<Suites>)
    ensures r.result.Ok? <==> ProvidesRequired(table)
    ensures r.result.Ok? ==> HoldsFetched(r.result.value, table)
                             && r.host.log == h.log + Requests(LoadOrder)
    ensures r.result.Err? ==>
              && r.result.error == InvalidSuite
              && exists k | 0 <= k < |LoadOrder| ::
                   && Missing(table, LoadOrder[k])
                   && (forall j | 0 <= j < k :: !Missing(table, LoadOrder[j]))
                   && r.host.log == h.log + Requests(LoadOrder[..k + 1])
    ensures SameSlots(h, r.host)
  {
    match FirstMissing(table, LoadOrder)
    case Some(k) => Step(Err(InvalidSuite), h.(log := h.log + Requests(LoadOrder[..k + 1])))
    case None => Step(Ok(Fetched(table)), h.(log := h.log + Requests(LoadOrder)))
  }

  /** The suites a host that provides every required one hands out. */
  function Fetched(table: map<SuiteId, Handle>): (s: Suites)
    requires ProvidesRequired(table)
    ensures HoldsFetched(s, table)
  {
    RequiredPresent(table);
    Suites(
      Fetch(table, SuiteId(ImageEffectSuite, 1)).value,
      Fetch(table, SuiteId(PropertySuite, 1)).value,
      Fetch(table, SuiteId(ParameterSuite, 1)).value,
      Fetch(table, SuiteId(MemorySuite, 1)).value,
      Fetch(table, SuiteId(MultiThreadSuite, 1)).value,
      Fetch(table, SuiteId(MessageSuite, 1)).value,
      Fetch(table, SuiteId(MessageSuite, 2)),
      Fetch(table, SuiteId(ProgressSuite, 1)).value,
      Fetch(table, SuiteId(ProgressSuite, 2)),
      Fetch(table, SuiteId(TimeLineSuite, 1)).value,
      Fetch(table, SuiteId(ParametricParameterSuite, 1)),
      Fetch(table, SuiteId(ImageEffectOpenGLRenderSuite, 1)))
  }

  /** The suite-fetching part of `load`: no host or no `fetchSuite` is
      `HostNotReady` before any request is made. */
  function Load(desc: Option<HostDescriptor>, h: Host): (r: Step<Suites>)
    ensures desc.None? || desc.value.fetchSuite.None? ==> r == Step(Err(HostNotReady), h)
    ensures desc.Some? && desc.value.fetchSuite.Some? ==>
              r == FetchSuites(desc.value.fetchSuite.value, h)
  {
    match desc
    case None => Step(Err(HostNotReady), h)
    case Some(d) =>
      match d.fetchSuite
      case None => Step(Err(HostNotReady), h)
      case Some(table) => FetchSuites(table, h)
  }
}
