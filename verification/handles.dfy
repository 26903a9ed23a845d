/** The typed handles the adapter gives plugin code: parameter value
    marshaling, clip and image acquisition and release, and the per-instance
    data pointer. Every suite call goes through the abstract host. */
module Handles {
  import opened Results
  import opened CStrings
  import opened Host

  /** `ImageEffectHandle`: the effect instance and the suites it was built
      with (the OpenGL-render suite only when the host provides it). */
  datatype EffectHandle = EffectHandle(
    inner: Handle,
    property: Handle,
    imageEffect: Handle,
    openGLRender: Option<Handle>,
    parameter: Handle)

  datatype ClipInstance = ClipInstance(
    inner: Handle,
    innerProperties: Handle,
    property: Handle,
    imageEffect: Handle,
    openGLRender: Option<Handle>)

  /** An acquired image; `isTexture` records how it was acquired, and so how
      it must be released. */
  datatype Image = Image(
    inner: Handle,
    property: Handle,
    imageEffect: Handle,
    openGLRender: Option<Handle>,
    isTexture: bool)

  datatype ParamHandle = ParamHandle(inner: Handle, innerProperties: Handle, property: Handle, parameter: Handle)

  datatype ParamSetHandle = ParamSetHandle(inner: Handle, property: Handle, parameter: Handle)

  /** A property set together with the property suite that reads it. */
  datatype PropertySet = PropertySet(inner: Handle, property: Handle)

  datatype ImageDescriptor = ImageDescriptor(bounds: RectI, rowBytes: int, data: Handle)

  /** The result of an operation that may also touch the plugin's heap. */
  datatype Outcome<+T> = Outcome(result: Result<T>, world: World)

  /** A suite call that hands back handles on success (`suite_fn!` with
      out-parameters): the handles the host issues, or the failure. */
  function Request(h: Host, c: Call): (r: Step<(Handle, Handle)>)
    ensures r.host == Receive(h, c)
    ensures r.result.Ok? <==> StatusOf(h, c) == OK
    ensures r.result.Ok? ==> r.result.value == Issued(h, c)
    ensures r.result.Err? ==> r.result.error == HostFailure(StatusOf(h, c))
  {
    var s := Invoke(h, c);
    if s.result.Err? then Step(Err(s.result.error), s.host) else Step(Ok(Issued(h, c)), s.host)
  }

  // ---------------------------------------------------------------------
  // Parameter values

  /** `ParamHandle<Bool>::get_value` (`time` absent) and `get_value_at_time`:
      the host's integer, read as true exactly when it is nonzero. */
  function BoolGetValue(p: ParamHandle, time: Option<Time>, h: Host): (r: Step<bool>)
    ensures r.host.log == h.log + [ParamGetValue(p.inner, time)] && SameSlots(h, r.host)
    ensures r.result.Ok? <==> StatusOf(h, ParamGetValue(p.inner, time)) == OK
    ensures r.result.Ok? ==> (r.result.value <==> ReadInt(h, ParamValue(p.inner, time)) != 0)
    ensures r.result.Err? ==> r.result.error == HostFailure(StatusOf(h, ParamGetValue(p.inner, time)))
  {
    var s := Invoke(h, ParamGetValue(p.inner, time));
    if s.result.Err? then Step(Err(s.result.error), s.host)
    else Step(Ok(ReadInt(h, ParamValue(p.inner, time)) != 0), s.host)
  }

  /** `value as Int`. */
  function BoolToInt(b: bool): (i: int)
    ensures i == 0 || i == 1
    ensures (i != 0) == b
  {
    if b then 1 else 0
  }

  /** `ParamHandle<Bool>::set_value` and `set_value_at_time`: one call that
      sends 1 for true and 0 for false. */
  function BoolSetValue(p: ParamHandle, time: Option<Time>, value: bool, h: Host): (r: Step<()>)
    ensures |r.host.log| == |h.log| + 1 && r.host.log[..|h.log|] == h.log
    ensures var c := r.host.log[|h.log|];
            && c.ParamSetInt? && c.param == p.inner && c.time == time
            && (c.i == 0 || c.i == 1) && (c.i != 0 <==> value)
    ensures r.result.Ok? <==> StatusOf(h, r.host.log[|h.log|]) == OK
  {
    Invoke(h, ParamSetInt(p.inner, time, BoolToInt(value)))
  }

  /** A boolean set that the host accepts is read back unchanged. */
  lemma BoolSetThenGet(p: ParamHandle, time: Option<Time>, value: bool, h: Host)
    requires BoolSetValue(p, time, value, h).result.Ok?
    ensures var h' := BoolSetValue(p, time, value, h).host;
            BoolGetValue(p, time, h').result.Ok? ==> BoolGetValue(p, time, h').result.value == value
  {
  }

  /** `ParamHandle<String>::get_value` and `get_value_at_time`: a null
      pointer reads as the empty string; otherwise the bytes up to the
      terminator, which must be UTF-8. */
  function StringGetValue(p: ParamHandle, time: Option<Time>, h: Host): (r: Step<Utf8>)
    ensures r.host.log == h.log + [ParamGetValue(p.inner, time)] && SameSlots(h, r.host)
    ensures StatusOf(h, ParamGetValue(p.inner, time)) != OK ==>
              r.result == Err(HostFailure(StatusOf(h, ParamGetValue(p.inner, time))))
    ensures StatusOf(h, ParamGetValue(p.inner, time)) == OK ==>
              match ReadString(h, ParamValue(p.inner, time))
              case None => r.result == Ok([])
              case Some(buf) =>
                if ValidUtf8(CStrContents(buf)) then r.result == Ok(CStrContents(buf))
                else r.result == Err(StringConversion)
  {
    var s := Invoke(h, ParamGetValue(p.inner, time));
    if s.result.Err? then Step(Err(s.result.error), s.host)
    else
      match ReadString(h, ParamValue(p.inner, time))
      case None => Step(Ok([]), s.host)
      case Some(buf) =>
        match ToStr(CStrContents(buf))
        case None => Step(Err(StringConversion), s.host)
        case Some(str) => Step(Ok(str), s.host)
  }

  /** `ParamHandle<String>::set_value` and `set_value_at_time`: a value with
      a NUL is refused before the host is called; otherwise one call with
      the NUL-terminated value. */
  function StringSetValue(p: ParamHandle, time: Option<Time>, value: Utf8, h: Host): (r: Step<()>)
    ensures !NoNul(value) ==> r == Step(Err(StringConversion), h)
    ensures NoNul(value) ==> r == Invoke(h, ParamSetString(p.inner, time, value + [NUL]))
  {
    match CStringNew(value)
    case None => Step(Err(StringConversion), h)
    case Some(buf) => Invoke(h, ParamSetString(p.inner, time, buf))
  }

  /** A string set that the host accepts is read back unchanged. */
  lemma StringSetThenGet(p: ParamHandle, time: Option<Time>, value: Utf8, h: Host)
    requires StringSetValue(p, time, value, h).result.Ok?
    ensures var h' := StringSetValue(p, time, value, h).host;
            StringGetValue(p, time, h').result.Ok? ==> StringGetValue(p, time, h').result.value == value
  {
    CStrContentsOfCString(value);
  }

  // ---------------------------------------------------------------------
  // Clips and images

  /** `ClipInstance::get_image_rect` and `get_image_rect_mut` (and, with no
      region, `get_image` and `get_image_mut`): one `clipGetImage` call; the
      image is not a texture. */
  function AcquireImage(clip: ClipInstance, at: Time, region: Option<RectD>, h: Host): (r: Step<Image>)
    ensures r.host == Receive(h, ClipGetImage(clip.inner, at, region))
    ensures r.result.Ok? <==> StatusOf(h, ClipGetImage(clip.inner, at, region)) == OK
    ensures r.result.Ok? ==>
              && !r.result.value.isTexture
              && r.result.value.inner == Issued(h, ClipGetImage(clip.inner, at, region)).0
              && r.result.value.property == clip.property
              && r.result.value.imageEffect == clip.imageEffect
              && r.result.value.openGLRender == clip.openGLRender
  {
    var s := Request(h, ClipGetImage(clip.inner, at, region));
    if s.result.Err? then Step(Err(s.result.error), s.host)
    else Step(Ok(Image(s.result.value.0, clip.property, clip.imageEffect, clip.openGLRender, false)), s.host)
  }

  /** `ClipInstance::load_texture` and `load_texture_mut`: without the
      OpenGL-render suite, `InvalidSuite` and no call; otherwise one
      `clipLoadTexture` call, and the image is a texture. */
  function LoadTexture(clip: ClipInstance, at: Time, region: Option<RectD>, h: Host): (r: Step<Image>)
    ensures clip.openGLRender.None? ==> r == Step(Err(InvalidSuite), h)
    ensures clip.openGLRender.Some? ==>
              && r.host == Receive(h, ClipLoadTexture(clip.inner, at, region))
              && (r.result.Ok? <==> StatusOf(h, ClipLoadTexture(clip.inner, at, region)) == OK)
    ensures r.result.Ok? ==>
              && r.result.value.isTexture
              && r.result.value.inner == Issued(h, ClipLoadTexture(clip.inner, at, region)).0
              && r.result.value.property == clip.property
              && r.result.value.imageEffect == clip.imageEffect
              && r.result.value.openGLRender == clip.openGLRender
  {
    match clip.openGLRender
    case None => Step(Err(InvalidSuite), h)
    case Some(_) =>
      var s := Request(h, ClipLoadTexture(clip.inner, at, region));
      if s.result.Err? then Step(Err(s.result.error), s.host)
      else Step(Ok(Image(s.result.value.0, clip.property, clip.imageEffect, clip.openGLRender, true)), s.host)
  }

  /** `Image::drop_image`: a texture is freed with `clipFreeTexture` (and
      needs the OpenGL-render suite), any other image released with
      `clipReleaseImage`. At most one call is made. */
  function DropImage(img: Image, h: Host): (r: Step<()>)
    ensures img.isTexture && img.openGLRender.None? ==> r == Step(Err(InvalidSuite), h)
    ensures img.isTexture && img.openGLRender.Some? ==> r == Invoke(h, ClipFreeTexture(img.inner))
    ensures !img.isTexture ==> r == Invoke(h, ClipReleaseImage(img.inner))
  {
    if img.isTexture then
      match img.openGLRender
      case None => Step(Err(InvalidSuite), h)
      case Some(_) => Invoke(h, ClipFreeTexture(img.inner))
    else Invoke(h, ClipReleaseImage(img.inner))
  }

  /** `Drop for Image` turns any failure to release into a panic. */
  predicate DropPanics(img: Image, h: Host) {
    DropImage(img, h).result.Err?
  }

  /** The release call that matches the way an image was acquired. */
  function ReleaseCall(img: Image): Call {
    if img.isTexture then ClipFreeTexture(img.inner) else ClipReleaseImage(img.inner)
  }

  /** Whatever way an image is acquired, dropping it makes exactly one call,
      the one that matches the acquisition, and cannot fail for want of a
      suite; it panics only when the host refuses the release. */
  lemma AcquireThenRelease(clip: ClipInstance, at: Time, region: Option<RectD>, texture: bool, h: Host)
    ensures var a := if texture then LoadTexture(clip, at, region, h) else AcquireImage(clip, at, region, h);
            a.result.Ok? ==>
              && a.result.value.isTexture == texture
              && DropImage(a.result.value, a.host).host.log == a.host.log + [ReleaseCall(a.result.value)]
              && (DropPanics(a.result.value, a.host) <==> StatusOf(a.host, ReleaseCall(a.result.value)) != OK)
  {
  }

  /** `Image` is `Clone` as well as `Drop`: two copies of one acquired image
      each release it when dropped, so the host sees the same release call
      twice. */
  lemma ClonesReleaseTwice(img: Image, h: Host)
    requires !(img.isTexture && img.openGLRender.None?)
    ensures var first := DropImage(img, h);
            DropImage(img, first.host).host.log == h.log + [ReleaseCall(img), ReleaseCall(img)]
  {
  }

  /** A texture whose image carries no OpenGL-render suite cannot be
      released: dropping it panics without calling the host. */
  lemma TextureWithoutSuitePanics(img: Image, h: Host)
    requires img.isTexture && img.openGLRender.None?
    ensures DropPanics(img, h) && DropImage(img, h).host == h
  {
  }

  /** `Image::get_descriptor`: the bounds, row bytes and data pointer of the
      image, read in that order; the first failure ends it. */
  function GetDescriptor(img: Image, h: Host): (r: Step<ImageDescriptor>)
    ensures r.result.Ok? ==>
              && r.host.log == h.log + [PropGetIntN(img.inner, ImageBounds), PropGetInt(img.inner, ImageRowBytes, 0),
                                        PropGetPointer(img.inner, ImageData, 0)]
              && r.result.value == ImageDescriptor(
                   ReadRect(h, Property(img.inner, ImageBounds, 0)),
                   ReadInt(h, Property(img.inner, ImageRowBytes, 0)),
                   ReadPointer(h, Property(img.inner, ImageData, 0)))
    ensures r.result.Err? ==> 1 <= |r.host.log| - |h.log| <= 3 && r.result.error.HostFailure?
    ensures SameSlots(h, r.host)
  {
    var b := Invoke(h, PropGetIntN(img.inner, ImageBounds));
    if b.result.Err? then Step(Err(b.result.error), b.host)
    else
      var rb := Invoke(b.host, PropGetInt(img.inner, ImageRowBytes, 0));
      if rb.result.Err? then Step(Err(rb.result.error), rb.host)
      else
        var d := Invoke(rb.host, PropGetPointer(img.inner, ImageData, 0));
        if d.result.Err? then Step(Err(d.result.error), d.host)
        else
          Step(Ok(ImageDescriptor(
                    ReadRect(h, Property(img.inner, ImageBounds, 0)),
                    ReadInt(h, Property(img.inner, ImageRowBytes, 0)),
                    ReadPointer(h, Property(img.inner, ImageData, 0)))),
               d.host)
  }

  /** The three reads `get_descriptor` makes, in order. */
  function DescriptorReads(img: Image): (calls: seq<Call>)
    ensures |calls| == 3
  {
    [PropGetIntN(img.inner, ImageBounds), PropGetInt(img.inner, ImageRowBytes, 0), PropGetPointer(img.inner, ImageData, 0)]
  }

  /** The status the host gives the `k`-th read once the earlier ones were
      made. */
  function ReadStatus(h: Host, img: Image, k: nat): Status
    requires k < 3
  {
    h.status(h.log + DescriptorReads(img)[..k], DescriptorReads(img)[k])
  }

  /** `get_descriptor` succeeds exactly when the host answers all three
      reads; otherwise it stops at the first read the host refuses, having
      made that read and the ones before it and no other, and reports the
      refusal's status. */
  lemma GetDescriptorStopsAtRefusal(img: Image, h: Host)
    ensures GetDescriptor(img, h).result.Ok? <==> forall k | 0 <= k < 3 :: ReadStatus(h, img, k) == OK
    ensures var r := GetDescriptor(img, h);
            r.result.Err? ==>
              exists k | 0 <= k < 3 ::
                && (forall j | 0 <= j < k :: ReadStatus(h, img, j) == OK)
                && ReadStatus(h, img, k) != OK
                && r.result.error == HostFailure(ReadStatus(h, img, k))
                && r.host.log == h.log + DescriptorReads(img)[..k + 1]
  {
    var calls := DescriptorReads(img);
    var r := GetDescriptor(img, h);
    var h1 := Receive(h, calls[0]);
    var h2 := Receive(h1, calls[1]);
    assert h1.status == h.status && h1.log == h.log + calls[..1];
    assert h2.status == h.status && h2.log == h.log + calls[..2];
    assert h.log + calls[..0] == h.log;
    assert StatusOf(h, calls[0]) == ReadStatus(h, img, 0);
    assert StatusOf(h1, calls[1]) == ReadStatus(h, img, 1);
    assert StatusOf(h2, calls[2]) == ReadStatus(h, img, 2);
    if ReadStatus(h, img, 0) != OK {
      assert r.host.log == h.log + calls[..1];
    } else if ReadStatus(h, img, 1) != OK {
      assert r.host.log == h.log + calls[..2];
    } else if ReadStatus(h, img, 2) != OK {
      assert r.host.log == h.log + calls[..3];
    }
  }

  // ---------------------------------------------------------------------
  // The effect instance

  /** `properties()`: the effect's property set, from `getPropertySet`. */
  function Properties(eff: EffectHandle, h: Host): (r: Step<PropertySet>)
    ensures r.host == Receive(h, GetPropertySet(eff.inner))
    ensures r.result.Ok? <==> StatusOf(h, GetPropertySet(eff.inner)) == OK
    ensures r.result.Ok? ==> r.result.value == PropertySet(Issued(h, GetPropertySet(eff.inner)).0, eff.property)
  {
    var s := Request(h, GetPropertySet(eff.inner));
    if s.result.Err? then Step(Err(s.result.error), s.host)
    else Step(Ok(PropertySet(s.result.value.0, eff.property)), s.host)
  }

  /** `parameter_set`: the effect's parameter set, from `getParamSet`. */
  function ParameterSet(eff: EffectHandle, h: Host): (r: Step<ParamSetHandle>)
    ensures r.host == Receive(h, GetParamSet(eff.inner))
    ensures r.result.Ok? <==> StatusOf(h, GetParamSet(eff.inner)) == OK
    ensures r.result.Ok? ==>
              r.result.value == ParamSetHandle(Issued(h, GetParamSet(eff.inner)).0, eff.property, eff.parameter)
  {
    var s := Request(h, GetParamSet(eff.inner));
    if s.result.Err? then Step(Err(s.result.error), s.host)
    else Step(Ok(ParamSetHandle(s.result.value.0, eff.property, eff.parameter)), s.host)
  }

  /** `clip_get_handle`: looks a clip up by its NUL-terminated name. */
  function LookUpClip(eff: EffectHandle, name: seq<byte>, h: Host): (r: Step<ClipInstance>)
    ensures r.host == Receive(h, ClipGetHandle(eff.inner, name))
    ensures r.result.Ok? <==> StatusOf(h, ClipGetHandle(eff.inner, name)) == OK
    ensures r.result.Ok? ==>
              var (clip, props) := Issued(h, ClipGetHandle(eff.inner, name));
              r.result.value == ClipInstance(clip, props, eff.property, eff.imageEffect, eff.openGLRender)
  {
    var s := Request(h, ClipGetHandle(eff.inner, name));
    if s.result.Err? then Step(Err(s.result.error), s.host)
    else Step(Ok(ClipInstance(s.result.value.0, s.result.value.1, eff.property, eff.imageEffect, eff.openGLRender)), s.host)
  }

  /** `clip_define`: declares a clip by its NUL-terminated name. */
  function DefineClip(eff: EffectHandle, name: seq<byte>, h: Host): (r: Step<PropertySet>)
    ensures r.host == Receive(h, ClipDefine(eff.inner, name))
    ensures r.result.Ok? <==> StatusOf(h, ClipDefine(eff.inner, name)) == OK
    ensures r.result.Ok? ==> r.result.value == PropertySet(Issued(h, ClipDefine(eff.inner, name)).0, eff.property)
  {
    var s := Request(h, ClipDefine(eff.inner, name));
    if s.result.Err? then Step(Err(s.result.error), s.host)
    else Step(Ok(PropertySet(s.result.value.0, eff.property)), s.host)
  }

  /** The standard clip names of the OpenFX Image Effect API
      (`kOfxImageEffectOutputClipName`, `kOfxImageEffectSimpleSourceClipName`). */
  const OutputClipName: seq<byte> := CLiteral("Output")
  const SourceClipName: seq<byte> := CLiteral("Source")

  /** `get_output_clip` and `get_simple_input_clip`. */
  function OutputClip(eff: EffectHandle, h: Host): (r: Step<ClipInstance>)
    ensures r == LookUpClip(eff, Ascii("Output") + [NUL], h)
  {
    LookUpClip(eff, OutputClipName, h)
  }

  function SimpleInputClip(eff: EffectHandle, h: Host): (r: Step<ClipInstance>)
    ensures r == LookUpClip(eff, Ascii("Source") + [NUL], h)
  {
    LookUpClip(eff, SourceClipName, h)
  }

  /** `get_clip`: a name with a NUL is refused before the host is called;
      otherwise the clip is looked up by the name and its terminator. */
  function GetClip(eff: EffectHandle, name: Utf8, h: Host): (r: Step<ClipInstance>)
    ensures !NoNul(name) ==> r == Step(Err(StringConversion), h)
    ensures NoNul(name) ==> r == LookUpClip(eff, name + [NUL], h)
  {
    match CStringNew(name)
    case None => Step(Err(StringConversion), h)
    case Some(buf) => LookUpClip(eff, buf, h)
  }

  /** `new_clip`, likewise, through `clip_define`. */
  function NewClip(eff: EffectHandle, name: Utf8, h: Host): (r: Step<PropertySet>)
    ensures !NoNul(name) ==> r == Step(Err(StringConversion), h)
    ensures NoNul(name) ==> r == DefineClip(eff, name + [NUL], h)
  {
    match CStringNew(name)
    case None => Step(Err(StringConversion), h)
    case Some(buf) => DefineClip(eff, buf, h)
  }

  /** `new_output_clip` and `new_simple_input_clip`. */
  function NewOutputClip(eff: EffectHandle, h: Host): (r: Step<PropertySet>)
    ensures r == DefineClip(eff, Ascii("Output") + [NUL], h)
  {
    DefineClip(eff, OutputClipName, h)
  }

  function NewSimpleInputClip(eff: EffectHandle, h: Host): (r: Step<PropertySet>)
    ensures r == DefineClip(eff, Ascii("Source") + [NUL], h)
  {
    DefineClip(eff, SourceClipName, h)
  }

  /** A name with an interior NUL never reaches the host, and a clean name
      reaches it with exactly one terminator: the host reads it back as the
      name itself. */
  lemma ClipNamesReachHostIntact(eff: EffectHandle, name: Utf8, h: Host)
    ensures !NoNul(name) ==> GetClip(eff, name, h).host == h && NewClip(eff, name, h).host == h
    ensures NoNul(name) ==>
              && GetClip(eff, name, h).host.log == h.log + [ClipGetHandle(eff.inner, name + [NUL])]
              && NewClip(eff, name, h).host.log == h.log + [ClipDefine(eff.inner, name + [NUL])]
              && CStrContents(name + [NUL]) == name
  {
    if NoNul(name) {
      CStrContentsOfCString(name);
    }
  }

  /** `abort`: the host's answer, true when nonzero; no status to check. */
  function IsAborted(eff: EffectHandle, h: Host): (r: Step<bool>)
    ensures r.result.Ok?
    ensures r.result.value <==> ReadInt(h, AbortFlag(eff.inner)) != 0
    ensures r.host == Receive(h, Abort(eff.inner)) && SameSlots(h, r.host)
  {
    Step(Ok(ReadInt(h, AbortFlag(eff.inner)) != 0), Receive(h, Abort(eff.inner)))
  }

  /** The host raising the abort flag of an effect is what `abort` reports,
      and asking again gives the same answer: the query changes nothing but
      the log. */
  lemma AbortFollowsHostFlag(eff: EffectHandle, h: Host, flag: int)
    ensures var h' := h.(ints := h.ints[AbortFlag(eff.inner) := flag]);
            IsAborted(eff, h').result.value <==> flag != 0
    ensures IsAborted(eff, IsAborted(eff, h).host).result == IsAborted(eff, h).result
    ensures IsAborted(eff, IsAborted(eff, h).host).host.log == h.log + [Abort(eff.inner), Abort(eff.inner)]
  {
  }

  /** The slot holding the instance-data pointer of a property set. */
  function InstanceSlot(props: Handle): Slot {
    Property(props, InstanceData, 0)
  }

  /** The request for the effect's property set. */
  function PropsRequest(eff: EffectHandle): Call {
    GetPropertySet(eff.inner)
  }

  /** The property set the host hands out for the effect now. */
  function InstanceProps(eff: EffectHandle, h: Host): Handle {
    Issued(h, PropsRequest(eff)).0
  }

  /** The read of the instance-data pointer that follows the property-set
      request. */
  function PointerRead(eff: EffectHandle, h: Host): Call {
    PropGetPointer(InstanceProps(eff, h), InstanceData, 0)
  }

  /** The host answers both calls `get_instance_data_ptr` makes. */
  predicate PointerReadAnswered(eff: EffectHandle, h: Host) {
    && StatusOf(h, PropsRequest(eff)) == OK
    && StatusOf(Receive(h, PropsRequest(eff)), PointerRead(eff, h)) == OK
  }

  /** `set_instance_data`: boxes `data` and stores the new pointer; if the
      host refuses, the new box is freed again. Nothing already on the heap
      is freed. The result is that of the two calls: the property-set
      request, then the write of the new pointer. */
  function SetInstanceData(eff: EffectHandle, data: Payload, w: World): (r: Outcome<()>)
    requires w.heap.Valid()
    ensures var write := PropSetPointer(InstanceProps(eff, w.host), InstanceData, 0, w.heap.next);
            var h1 := Receive(w.host, PropsRequest(eff));
            && (r.result.Ok? <==> StatusOf(w.host, PropsRequest(eff)) == OK && StatusOf(h1, write) == OK)
            && (StatusOf(w.host, PropsRequest(eff)) != OK ==>
                  && r.result == Err(HostFailure(StatusOf(w.host, PropsRequest(eff))))
                  && r.world.host.log == w.host.log + [PropsRequest(eff)])
            && (StatusOf(w.host, PropsRequest(eff)) == OK ==>
                  && r.world.host.log == w.host.log + [PropsRequest(eff), write]
                  && (StatusOf(h1, write) != OK ==> r.result == Err(HostFailure(StatusOf(h1, write)))))
    ensures r.world.heap.Valid() && r.world.heap.invalidFrees == w.heap.invalidFrees
    ensures forall p | p in w.heap.live :: p in r.world.heap.live && r.world.heap.live[p] == w.heap.live[p]
    ensures r.result.Err? ==> r.world.heap.live == w.heap.live
    ensures r.result.Ok? ==>
              exists ptr: Handle | ptr !in w.heap.live && ptr != Null ::
                && r.world.heap.live == w.heap.live[ptr := data]
                && var props := Issued(w.host, GetPropertySet(eff.inner)).0;
                   r.world.host.pointers == w.host.pointers[InstanceSlot(props) := ptr]
  {
    var ps := Properties(eff, w.host);
    if ps.result.Err? then Outcome(Err(ps.result.error), World(ps.host, w.heap))
    else
      var (ptr, heap1) := Alloc(w.heap, data);
      var st := Invoke(ps.host, PropSetPointer(ps.result.value.inner, InstanceData, 0, ptr));
      if st.result.Err? then Outcome(st.result, World(st.host, Free(heap1, ptr)))
      else Outcome(st.result, World(st.host, heap1))
  }

  /** `get_instance_data_ptr`: the pointer stored in the effect's instance
      data property (null if none was ever stored). */
  function GetInstanceDataPtr(eff: EffectHandle, h: Host): (r: Step<Handle>)
    ensures SameSlots(h, r.host)
    ensures r.result.Ok? <==> PointerReadAnswered(eff, h)
    ensures StatusOf(h, PropsRequest(eff)) != OK ==>
              && r.result == Err(HostFailure(StatusOf(h, PropsRequest(eff))))
              && r.host.log == h.log + [PropsRequest(eff)]
    ensures var h1 := Receive(h, PropsRequest(eff));
            StatusOf(h, PropsRequest(eff)) == OK && StatusOf(h1, PointerRead(eff, h)) != OK ==>
              && r.result == Err(HostFailure(StatusOf(h1, PointerRead(eff, h))))
              && r.host.log == h.log + [PropsRequest(eff), PointerRead(eff, h)]
    ensures r.result.Ok? ==>
              var h1 := Receive(h, GetPropertySet(eff.inner));
              var props := Issued(h, GetPropertySet(eff.inner)).0;
              && StatusOf(h, GetPropertySet(eff.inner)) == OK
              && StatusOf(h1, PropGetPointer(props, InstanceData, 0)) == OK
              && r.result.value == ReadPointer(h, InstanceSlot(props))
              && r.host.log == h.log + [GetPropertySet(eff.inner), PropGetPointer(props, InstanceData, 0)]
  {
    var ps := Properties(eff, h);
    if ps.result.Err? then Step(Err(ps.result.error), ps.host)
    else
      var props := ps.result.value.inner;
      var st := Invoke(ps.host, PropGetPointer(props, InstanceData, 0));
      if st.result.Err? then Step(Err(st.result.error), st.host)
      else Step(Ok(ReadPointer(ps.host, InstanceSlot(props))), st.host)
  }

  /** `drop_instance_data`: frees the stored pointer when it is not null.
      The slot is left as it is. */
  function DropInstanceData(eff: EffectHandle, w: World): (r: Outcome<()>)
    ensures w.heap.Valid() ==> r.world.heap.Valid()
    ensures SameSlots(w.host, r.world.host)
    ensures var g := GetInstanceDataPtr(eff, w.host);
            && r.world.host == g.host
            && (g.result.Err? ==> r.result == Err(g.result.error) && r.world.heap == w.heap)
            && (g.result.Ok? ==>
                  && r.result.Ok?
                  && (g.result.value == Null ==> r.world.heap == w.heap)
                  && (g.result.value != Null ==> r.world.heap == Free(w.heap, g.result.value)))
  {
    var g := GetInstanceDataPtr(eff, w.host);
    if g.result.Err? then Outcome(Err(g.result.error), World(g.host, w.heap))
    else if g.result.value == Null then Outcome(Ok(()), World(g.host, w.heap))
    else Outcome(Ok(()), World(g.host, Free(w.heap, g.result.value)))
  }

  /** The host hands out the same property set for the effect every time. */
  ghost predicate StableProperties(h: Host, eff: EffectHandle) {
    forall log: seq<Call> :: h.issue(log, GetPropertySet(eff.inner)).0 == h.issue([], GetPropertySet(eff.inner)).0
  }

  /** Round trip: after a successful `set_instance_data`, a host that answers
      the two reads of `get_instance_data_ptr` gives back a live box holding
      exactly the data stored. */
  lemma SetThenGetInstanceData(eff: EffectHandle, data: Payload, w: World)
    requires w.heap.Valid() && StableProperties(w.host, eff)
    requires SetInstanceData(eff, data, w).result.Ok?
    ensures var w' := SetInstanceData(eff, data, w).world;
            var g := GetInstanceDataPtr(eff, w'.host);
            PointerReadAnswered(eff, w'.host) ==>
              && g.result.Ok?
              && g.result.value in w'.heap.live
              && w'.heap.live[g.result.value] == data
  {
  }

  /** `drop_instance_data` does not clear the slot, so destroying an instance
      twice releases the same box twice: the second release is an invalid
      free. */
  lemma DoubleDropIsInvalidFree(eff: EffectHandle, w: World)
    requires w.heap.Valid() && StableProperties(w.host, eff)
    requires PointerReadAnswered(eff, w.host)
    requires GetInstanceDataPtr(eff, w.host).result.value in w.heap.live
    ensures var first := DropInstanceData(eff, w);
            var second := DropInstanceData(eff, first.world);
            var p := GetInstanceDataPtr(eff, w.host).result.value;
            PointerReadAnswered(eff, first.world.host) ==>
              && p !in first.world.heap.live
              && second.world.heap.invalidFrees == w.heap.invalidFrees + [p]
  {
  }

  // ---------------------------------------------------------------------
  // Parameter sets

  /** `param_define`: a name with a NUL is refused before the host is
      called; otherwise `paramDefine` with the terminated name. */
  function DefineParam(ps: ParamSetHandle, kind: ParamType, name: Utf8, h: Host): (r: Step<PropertySet>)
    ensures !NoNul(name) ==> r == Step(Err(StringConversion), h)
    ensures NoNul(name) ==>
              && r.host == Receive(h, ParamDefine(ps.inner, kind, name + [NUL]))
              && (r.result.Ok? <==> StatusOf(h, ParamDefine(ps.inner, kind, name + [NUL])) == OK)
              && (r.result.Ok? ==>
                    r.result.value == PropertySet(Issued(h, ParamDefine(ps.inner, kind, name + [NUL])).0, ps.property))
  {
    match CStringNew(name)
    case None => Step(Err(StringConversion), h)
    case Some(buf) =>
      var s := Request(h, ParamDefine(ps.inner, kind, buf));
      if s.result.Err? then Step(Err(s.result.error), s.host)
      else Step(Ok(PropertySet(s.result.value.0, ps.property)), s.host)
  }

  /** `parameter`: looks a parameter up by name, refusing a name with a NUL
      before the host is called. */
  function Parameter(ps: ParamSetHandle, name: Utf8, h: Host): (r: Step<ParamHandle>)
    ensures !NoNul(name) ==> r == Step(Err(StringConversion), h)
    ensures NoNul(name) ==>
              && r.host == Receive(h, ParamGetHandle(ps.inner, name + [NUL]))
              && (r.result.Ok? <==> StatusOf(h, ParamGetHandle(ps.inner, name + [NUL])) == OK)
              && (r.result.Ok? ==>
                    var (param, props) := Issued(h, ParamGetHandle(ps.inner, name + [NUL]));
                    r.result.value == ParamHandle(param, props, ps.property, ps.parameter))
  {
    match CStringNew(name)
    case None => Step(Err(StringConversion), h)
    case Some(buf) =>
      var s := Request(h, ParamGetHandle(ps.inner, buf));
      if s.result.Err? then Step(Err(s.result.error), s.host)
      else Step(Ok(ParamHandle(s.result.value.0, s.result.value.1, ps.property, ps.parameter)), s.host)
  }

  /** As for clips: a parameter name with an interior NUL never reaches the
      host, and a clean name reaches it in exactly one call whose buffer the
      host reads back as the name itself. */
  lemma ParamNamesReachHostIntact(ps: ParamSetHandle, kind: ParamType, name: Utf8, h: Host)
    ensures !NoNul(name) ==> DefineParam(ps, kind, name, h).host == h && Parameter(ps, name, h).host == h
    ensures NoNul(name) ==>
              exists buf ::
                && CStrContents(buf) == name
                && DefineParam(ps, kind, name, h).host.log == h.log + [ParamDefine(ps.inner, kind, buf)]
                && Parameter(ps, name, h).host.log == h.log + [ParamGetHandle(ps.inner, buf)]
  {
    if NoNul(name) {
      CStrContentsOfCString(name);
      assert CStrContents(name + [NUL]) == name;
    }
  }
}
