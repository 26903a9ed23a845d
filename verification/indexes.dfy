/** `EnumIndex<T>`: the lookup table from protocol token to enum tag that the
    plugin descriptor builds once, from NUL-terminated constants, and then
    consults with the bytes of an incoming C string. */
module Indexes {
  import opened Results
  import opened CStrings

  /** The forward map is keyed by the token's text; `inverse` maps each tag
      back to the last token registered for it. */
  datatype EnumIndex<T(==)> = EnumIndex(forward: map<Utf8, T>, inverse: map<T, Utf8>)

  function Empty<T(==)>(): EnumIndex<T> {
    EnumIndex(map[], map[])
  }

  /** The key buffers `insert` accepts: NUL-terminated with no interior NUL,
      and UTF-8 before the terminator. */
  predicate Accepts(keyBytes: seq<byte>) {
    FromBytesWithNul(keyBytes).Some? && ValidUtf8(FromBytesWithNul(keyBytes).value)
  }

  /** `insert`: registers `value` under the text of `keyBytes`; a buffer that
      is not an exactly NUL-terminated UTF-8 C string registers nothing. */
  function Insert<T(==)>(ix: EnumIndex<T>, keyBytes: seq<byte>, value: T): (r: EnumIndex<T>)
    ensures !Accepts(keyBytes) ==> r == ix
    ensures Accepts(keyBytes) ==>
              && |keyBytes| > 0
              && r.forward == ix.forward[keyBytes[..|keyBytes| - 1] := value]
              && r.inverse == ix.inverse[value := keyBytes[..|keyBytes| - 1]]
  {
    match FromBytesWithNul(keyBytes)
    case None => ix
    case Some(cstr) =>
      match ToStr(cstr)
      case None => ix
      case Some(key) => EnumIndex(ix.forward[key := value], ix.inverse[value := key])
  }

  /** `find`: the tag registered for `cKey`, which must pass `CString::new`
      (no NUL) and `into_string` (UTF-8) first. */
  function Find<T(==)>(ix: EnumIndex<T>, cKey: seq<byte>): (r: Option<T>)
    ensures r.Some? ==> NoNul(cKey) && ValidUtf8(cKey)
  {
    match CStringNew(cKey)
    case None => None
    case Some(_) =>
      match ToStr(cKey)
      case None => None
      case Some(key) => if key in ix.forward then Some(ix.forward[key]) else None
  }

  /** Round trip: a key inserted with its terminator is found again. */
  lemma InsertThenFind<T>(ix: EnumIndex<T>, key: seq<byte>, value: T)
    requires NoNul(key) && ValidUtf8(key)
    ensures Accepts(key + [NUL])
    ensures Find(Insert(ix, key + [NUL], value), key) == Some(value)
  {
    assert (key + [NUL])[..|key|] == key;
  }

  /** Inserting one key leaves every other key's lookup as it was. */
  lemma InsertKeepsOthers<T>(ix: EnumIndex<T>, keyBytes: seq<byte>, value: T, other: seq<byte>)
    requires keyBytes != other + [NUL]
    ensures Find(Insert(ix, keyBytes, value), other) == Find(ix, other)
  {
    if Accepts(keyBytes) {
      var key := keyBytes[..|keyBytes| - 1];
      assert keyBytes == key + [NUL];
    }
  }

  /** `find` rejects bytes holding a NUL and bytes that are not UTF-8, and
      knows nothing about the empty index. */
  lemma FindRejects<T>(ix: EnumIndex<T>, cKey: seq<byte>)
    ensures !NoNul(cKey) || !ValidUtf8(cKey) ==> Find(ix, cKey) == None
    ensures Find(Empty<T>(), cKey) == None
  {
  }

  /** Registers each (constant, tag) pair in order, as the descriptor's
      constructor does. */
  function InsertAll<T(==)>(ix: EnumIndex<T>, regs: seq<(seq<byte>, T)>): EnumIndex<T>
    decreases |regs|
  {
    if |regs| == 0 then ix
    else Insert(InsertAll(ix, regs[..|regs| - 1]), regs[|regs| - 1].0, regs[|regs| - 1].1)
  }

  /** The tag of the last registration whose constant is `keyBytes`. */
  function LastRegistered<T>(regs: seq<(seq<byte>, T)>, keyBytes: seq<byte>): (r: Option<T>)
    ensures r.None? <==> forall i | 0 <= i < |regs| :: regs[i].0 != keyBytes
    ensures r.Some? ==> exists i | 0 <= i < |regs| :: regs[i] == (keyBytes, r.value)
    decreases |regs|
  {
    if |regs| == 0 then None
    else if regs[|regs| - 1].0 == keyBytes then Some(regs[|regs| - 1].1)
    else
      var r := LastRegistered(regs[..|regs| - 1], keyBytes);
      assert r.Some? ==> exists i | 0 <= i < |regs| :: regs[i] == (keyBytes, r.value) by {
        if r.Some? {
          var i :| 0 <= i < |regs| - 1 && regs[..|regs| - 1][i] == (keyBytes, r.value);
          assert regs[i] == (keyBytes, r.value);
        }
      }
      assert r.None? ==> forall i | 0 <= i < |regs| :: regs[i].0 != keyBytes by {
        if r.None? {
          forall i | 0 <= i < |regs|
            ensures regs[i].0 != keyBytes
          {
            if i < |regs| - 1 {
              assert regs[i] == regs[..|regs| - 1][i];
            }
          }
        }
      }
      r
  }

  /** After registering a list, a well-formed key finds the last tag
      registered for it, and otherwise whatever the index held before. */
  lemma {:induction false} InsertAllFind<T>(ix: EnumIndex<T>, regs: seq<(seq<byte>, T)>, key: seq<byte>)
    ensures Find(InsertAll(ix, regs), key) ==
              if NoNul(key) && ValidUtf8(key) && LastRegistered(regs, key + [NUL]).Some?
              then LastRegistered(regs, key + [NUL])
              else Find(ix, key)
    decreases |regs|
  {
    if |regs| > 0 {
      var prefix := regs[..|regs| - 1];
      var (kb, v) := regs[|regs| - 1];
      InsertAllFind(ix, prefix, key);
      if kb == key + [NUL] {
        if NoNul(key) && ValidUtf8(key) {
          InsertThenFind(InsertAll(ix, prefix), key, v);
        } else {
          FindRejects(InsertAll(ix, regs), key);
          FindRejects(ix, key);
        }
      } else {
        InsertKeepsOthers(InsertAll(ix, prefix), kb, v, key);
      }
    }
  }

  /** `v` is the tag of some registration. */
  ghost predicate Registered<T>(regs: seq<(seq<byte>, T)>, v: T) {
    exists i | 0 <= i < |regs| :: regs[i].1 == v
  }

  /** An index built from a table that registers every tag under its token
      and terminator finds exactly the tokens, each to a tag it belongs to. */
  lemma FindTokens<T>(regs: seq<(seq<byte>, T)>, token: T -> seq<byte>, name: seq<byte>)
    requires forall i | 0 <= i < |regs| :: regs[i].0 == token(regs[i].1) + [NUL]
    requires forall v :: NoNul(token(v)) && ValidUtf8(token(v))
    requires forall v :: Registered(regs, v)
    ensures Find(InsertAll(Empty(), regs), name).Some? <==> exists v :: token(v) == name
    ensures Find(InsertAll(Empty(), regs), name).Some? ==> token(Find(InsertAll(Empty(), regs), name).value) == name
  {
    var found := Find(InsertAll(Empty(), regs), name);
    var last := LastRegistered(regs, name + [NUL]);
    InsertAllFind(Empty(), regs, name);
    if last.Some? {
      TokenOfRegistration(regs, token, name, last.value);
      assert found == last;
    } else {
      FindRejects(Empty<T>(), name);
      assert found.None?;
      forall v
        ensures token(v) != name
      {
        assert Registered(regs, v);
        var i :| 0 <= i < |regs| && regs[i].1 == v;
        assert regs[i].0 == token(v) + [NUL] != name + [NUL];
      }
    }
  }

  /** A tag registered under `name` and its terminator has `name` as token. */
  lemma TokenOfRegistration<T>(regs: seq<(seq<byte>, T)>, token: T -> seq<byte>, name: seq<byte>, v: T)
    requires forall i | 0 <= i < |regs| :: regs[i].0 == token(regs[i].1) + [NUL]
    requires exists i | 0 <= i < |regs| :: regs[i] == (name + [NUL], v)
    ensures token(v) == name
  {
    var i :| 0 <= i < |regs| && regs[i] == (name + [NUL], v);
    var t := token(v);
    assert t + [NUL] == name + [NUL];
    assert t == (t + [NUL])[..|t|];
    assert name == (name + [NUL])[..|name|];
  }
}
