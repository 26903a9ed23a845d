/** Identified enums: protocol enumerations whose tags correspond one to one
    with fixed byte-string tokens. A declaration is the ordered list of
    (tag, constant) pairs; `ToBytes` is the generated `match`, `FromBytes`
    the generated chain of `if` tests in declaration order. */
module Enums {
  import opened Results
  import opened CStrings

  datatype Decl<K> = Decl(key: K, value: seq<byte>)

  /** The tags of a declaration are pairwise distinct. */
  predicate DistinctKeys<K(==)>(decls: seq<Decl<K>>) {
    forall i, j | 0 <= i < j < |decls| :: decls[i].key != decls[j].key
  }

  /** The constants of a declaration are pairwise distinct. */
  predicate DistinctValues<K>(decls: seq<Decl<K>>) {
    forall i, j | 0 <= i < j < |decls| :: decls[i].value != decls[j].value
  }

  predicate Declares<K(==)>(decls: seq<Decl<K>>, k: K) {
    exists i | 0 <= i < |decls| :: decls[i].key == k
  }

  /** `to_bytes`: the constant declared for `k`. */
  function ToBytes<K(==)>(decls: seq<Decl<K>>, k: K): (r: seq<byte>)
    requires Declares(decls, k)
    ensures exists i | 0 <= i < |decls| :: decls[i].key == k && decls[i].value == r
  {
    if decls[0].key == k then decls[0].value
    else
      assert Declares(decls[1..], k) by {
        var i :| 0 <= i < |decls| && decls[i].key == k;
        assert decls[1..][i - 1].key == k;
      }
      ToBytes(decls[1..], k)
  }

  /** `from_bytes`: constants are tested in declaration order and the first
      one equal to `name` decides; no match is `None`. */
  function FromBytes<K>(decls: seq<Decl<K>>, name: seq<byte>): (r: Option<K>)
    ensures r.None? <==> forall i | 0 <= i < |decls| :: decls[i].value != name
    ensures r.Some? ==> exists i | 0 <= i < |decls| ::
              && decls[i].value == name && decls[i].key == r.value
              && forall j | 0 <= j < i :: decls[j].value != name
  {
    if |decls| == 0 then None
    else if name == decls[0].value then Some(decls[0].key)
    else
      var r := FromBytes(decls[1..], name);
      assert r.Some? ==> exists i | 0 <= i < |decls| ::
               && decls[i].value == name && decls[i].key == r.value
               && forall j | 0 <= j < i :: decls[j].value != name
      by {
        if r.Some? {
          var i :| 0 <= i < |decls[1..]| && decls[1..][i].value == name && decls[1..][i].key == r.value
                   && forall j | 0 <= j < i :: decls[1..][j].value != name;
          assert decls[i + 1].value == name && decls[i + 1].key == r.value;
          forall j | 0 <= j < i + 1
            ensures decls[j].value != name
          {
            if j > 0 {
              assert decls[j] == decls[1..][j - 1];
            }
          }
        }
      }
      r
  }

  /** With distinct constants, `from_bytes` inverts `to_bytes` for every tag. */
  lemma RoundTrip<K>(decls: seq<Decl<K>>, k: K)
    requires Declares(decls, k) && DistinctKeys(decls) && DistinctValues(decls)
    ensures FromBytes(decls, ToBytes(decls, k)) == Some(k)
  {
    var name := ToBytes(decls, k);
    var i :| 0 <= i < |decls| && decls[i].key == k && decls[i].value == name;
    var r := FromBytes(decls, name);
    var m :| 0 <= m < |decls| && decls[m].value == name && decls[m].key == r.value
             && forall j | 0 <= j < m :: decls[j].value != name;
    assert m == i;
  }

  /** With distinct tags, `to_bytes` inverts `from_bytes` on every constant it
      recognises. */
  lemma FromBytesThenToBytes<K>(decls: seq<Decl<K>>, name: seq<byte>)
    requires DistinctKeys(decls)
    requires FromBytes(decls, name).Some?
    ensures Declares(decls, FromBytes(decls, name).value)
    ensures ToBytes(decls, FromBytes(decls, name).value) == name
  {
    var k := FromBytes(decls, name).value;
    var i :| 0 <= i < |decls| && decls[i].value == name && decls[i].key == k
             && forall j | 0 <= j < i :: decls[j].value != name;
    var m :| 0 <= m < |decls| && decls[m].key == k && decls[m].value == ToBytes(decls, k);
    assert m == i;
  }

  /** A name `from_bytes` does not recognise is no declared tag's constant. */
  lemma NoConstantMatches<K>(decls: seq<Decl<K>>, name: seq<byte>, k: K)
    requires FromBytes(decls, name).None? && Declares(decls, k)
    ensures ToBytes(decls, k) != name
  {
    var i :| 0 <= i < |decls| && decls[i].key == k && decls[i].value == ToBytes(decls, k);
  }

  datatype ImageEffectContext = Filter | General

  datatype BitDepth = Byte | Short | Float

  const ContextDecls: seq<Decl<ImageEffectContext>> := [
    Decl(Filter, CLiteral("OfxImageEffectContextFilter")),
    Decl(General, CLiteral("OfxImageEffectContextGeneral"))
  ]

  const BitDepthDecls: seq<Decl<BitDepth>> := [
    Decl(Byte, CLiteral("OfxBitDepthByte")),
    Decl(Short, CLiteral("OfxBitDepthShort")),
    Decl(Float, CLiteral("OfxBitDepthFloat"))
  ]

  lemma ContextDeclsWellFormed()
    ensures DistinctKeys(ContextDecls) && DistinctValues(ContextDecls)
    ensures forall k: ImageEffectContext :: Declares(ContextDecls, k)
  {
    assert |ContextDecls[0].value| != |ContextDecls[1].value|;
    forall k: ImageEffectContext
      ensures Declares(ContextDecls, k)
    {
      var i := if k == Filter then 0 else 1;
      assert ContextDecls[i].key == k;
    }
  }

  lemma BitDepthDeclsWellFormed()
    ensures DistinctKeys(BitDepthDecls) && DistinctValues(BitDepthDecls)
    ensures forall k: BitDepth :: Declares(BitDepthDecls, k)
  {
    forall k: BitDepth
      ensures Declares(BitDepthDecls, k)
    {
      var i := match k case Byte => 0 case Short => 1 case Float => 2;
      assert BitDepthDecls[i].key == k;
    }
    assert |BitDepthDecls[0].value| != |BitDepthDecls[1].value|;
    assert |BitDepthDecls[0].value| != |BitDepthDecls[2].value|;
    assert BitDepthDecls[1].value[11] != BitDepthDecls[2].value[11];
  }

  /** `ImageEffectContext::to_bytes`. */
  function ContextToBytes(k: ImageEffectContext): (r: seq<byte>)
    ensures r == (match k
                  case Filter => CLiteral("OfxImageEffectContextFilter")
                  case General => CLiteral("OfxImageEffectContextGeneral"))
  {
    ContextDeclsWellFormed();
    ToBytes(ContextDecls, k)
  }

  /** `ImageEffectContext::from_bytes`. */
  function ContextFromBytes(name: seq<byte>): (r: Option<ImageEffectContext>)
    ensures r.None? <==> forall k: ImageEffectContext :: ContextToBytes(k) != name
    ensures r.Some? ==> ContextToBytes(r.value) == name
  {
    ContextDeclsWellFormed();
    var r := FromBytes(ContextDecls, name);
    if r.None? then
      assert forall k: ImageEffectContext :: ContextToBytes(k) != name by {
        forall k: ImageEffectContext
          ensures ContextToBytes(k) != name
        {
          NoConstantMatches(ContextDecls, name, k);
        }
      }
      r
    else
      FromBytesThenToBytes(ContextDecls, name);
      assert ContextToBytes(r.value) == name;
      r
  }

  /** `BitDepth::to_bytes`. */
  function BitDepthToBytes(k: BitDepth): (r: seq<byte>)
    ensures r == (match k
                  case Byte => CLiteral("OfxBitDepthByte")
                  case Short => CLiteral("OfxBitDepthShort")
                  case Float => CLiteral("OfxBitDepthFloat"))
  {
    BitDepthDeclsWellFormed();
    ToBytes(BitDepthDecls, k)
  }

  /** `BitDepth::from_bytes`. */
  function BitDepthFromBytes(name: seq<byte>): (r: Option<BitDepth>)
    ensures r.None? <==> forall k: BitDepth :: BitDepthToBytes(k) != name
    ensures r.Some? ==> BitDepthToBytes(r.value) == name
  {
    BitDepthDeclsWellFormed();
    var r := FromBytes(BitDepthDecls, name);
    if r.None? then
      assert forall k: BitDepth :: BitDepthToBytes(k) != name by {
        forall k: BitDepth
          ensures BitDepthToBytes(k) != name
        {
          NoConstantMatches(BitDepthDecls, name, k);
        }
      }
      r
    else
      FromBytesThenToBytes(BitDepthDecls, name);
      assert BitDepthToBytes(r.value) == name;
      r
  }

  lemma ContextRoundTrip(k: ImageEffectContext)
    ensures ContextFromBytes(ContextToBytes(k)) == Some(k)
  {
    ContextDeclsWellFormed();
    RoundTrip(ContextDecls, k);
  }

  lemma BitDepthRoundTrip(k: BitDepth)
    ensures BitDepthFromBytes(BitDepthToBytes(k)) == Some(k)
  {
    BitDepthDeclsWellFormed();
    RoundTrip(BitDepthDecls, k);
  }
}
