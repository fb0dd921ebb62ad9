/** What a cursor looks like from outside: its JSON, its base64url text, and which
    texts are taken for one. */
module CursorTexts {
  import opened Wrappers
  import opened CursorCodec

  const CAPITALS := "ABCDEFGHIJKLMNOPQRSTUVWXYZ"
  const SMALL := "abcdefghijklmnopqrstuvwxyz"
  const OTHERS := "0123456789-_"

  // Section 5 of RFC 4648.
  function Letter(n: int): char
    requires 0 <= n < 64
  {
    if n < 26 then CAPITALS[n] else if n < 52 then SMALL[n - 26] else OTHERS[n - 52]
  }

  lemma SymbolIs(n: int)
    requires 0 <= n < 64
    ensures Symbol(n) == Letter(n) as int
  {
  }

  predicate Sextets(values: seq<int>) { forall i :: 0 <= i < |values| ==> 0 <= values[i] < 64 }

  predicate Spell(text: Bytes, values: seq<int>) {
    |text| == |values| && Sextets(values) && forall i :: 0 <= i < |text| ==> text[i] == Letter(values[i]) as int
  }

  // Three bytes and four characters of the alphabet that stand for the same 24
  // bits; two and three, or one and two, for 16 and 8 with zero bits behind them.
  ghost predicate StandFor(text: Bytes, bytes: Bytes) {
    match |bytes|
    case 1 => exists a, b :: Spell(text, [a, b]) && a * 64 + b == bytes[0] as int * 16
    case 2 =>
      exists a, b, c :: Spell(text, [a, b, c])
        && (a * 64 + b) * 64 + c == (bytes[0] as int * 256 + bytes[1]) * 4
    case 3 =>
      exists a, b, c, d :: Spell(text, [a, b, c, d])
        && ((a * 64 + b) * 64 + c) * 64 + d == (bytes[0] as int * 256 + bytes[1]) * 256 + bytes[2]
    case _ => false
  }

  lemma {:induction false} Base64Size(b: Bytes)
    ensures |Base64(b)| == (|b| + 2) / 3 * 4
  {
    if |b| >= 3 {
      Base64Size(b[3..]);
    }
  }

  // Every whole group of three bytes, in its place, and what is left at the end.
  lemma {:induction false} Base64Is(b: Bytes, k: nat)
    requires 3 * k < |b|
    ensures var text := Base64(b);
            && |text| == (|b| + 2) / 3 * 4
            && (3 * k + 3 <= |b| ==> StandFor(text[4 * k..4 * k + 4], b[3 * k..3 * k + 3]))
            && (3 * k + 2 == |b| ==> StandFor(text[4 * k..4 * k + 3], b[3 * k..]) && text[4 * k + 3..] == [PAD])
            && (3 * k + 1 == |b| ==> StandFor(text[4 * k..4 * k + 2], b[3 * k..]) && text[4 * k + 2..] == [PAD, PAD])
    decreases k
  {
    hide Symbol, StandFor;
    if |b| == 1 {
      OneStands(b[0]);
      assert Base64(b)[..2] == [Symbol(b[0] / 4), Symbol(b[0] % 4 * 16)] && b[0..] == [b[0]];
    } else if |b| == 2 {
      TwoStand(b[0], b[1]);
      assert Base64(b)[..3] == [Symbol(b[0] / 4), Symbol(b[0] % 4 * 16 + b[1] / 16), Symbol(b[1] % 16 * 4)];
      assert b[0..] == [b[0], b[1]];
    } else {
      var head, rest := Group(b[0], b[1], b[2]), b[3..];
      assert Base64(b) == head + Base64(rest) && |head| == 4;
      Base64Size(rest);
      if k == 0 {
        ThreeStand(b[0], b[1], b[2]);
        assert Base64(b)[0..4] == head && b[0..3] == [b[0], b[1], b[2]];
      } else {
        Base64Is(rest, k - 1);
        Shifted(Base64(b), head, Base64(rest), b, k);
      }
    }
  }

  lemma Shifted(text: Bytes, head: Bytes, tail: Bytes, b: Bytes, k: nat)
    requires |b| > 3 * k && k > 0 && |head| == 4 && text == head + tail && |tail| == (|b| - 1) / 3 * 4
    ensures 4 * k + 4 <= |text| && text[4 * k..4 * k + 4] == tail[4 * k - 4..4 * k]
    ensures text[4 * k..4 * k + 3] == tail[4 * k - 4..4 * k - 1] && text[4 * k + 3..] == tail[4 * k - 1..]
    ensures text[4 * k..4 * k + 2] == tail[4 * k - 4..4 * k - 2] && text[4 * k + 2..] == tail[4 * k - 2..]
    ensures b[3 * k..] == b[3..][3 * k - 3..]
    ensures 3 * k + 3 <= |b| ==> b[3 * k..3 * k + 3] == b[3..][3 * k - 3..3 * k]
  {
  }

  lemma OneStands(x: Byte)
    ensures StandFor([Symbol(x / 4), Symbol(x % 4 * 16)], [x])
  {
    SymbolIs(x / 4);
    SymbolIs(x % 4 * 16);
    hide Symbol;
    assert Spell([Symbol(x / 4), Symbol(x % 4 * 16)], [x / 4, x % 4 * 16]);
  }

  lemma TwoStand(x: Byte, y: Byte)
    ensures StandFor([Symbol(x / 4), Symbol(x % 4 * 16 + y / 16), Symbol(y % 16 * 4)], [x, y])
  {
    SymbolIs(x / 4);
    SymbolIs(x % 4 * 16 + y / 16);
    SymbolIs(y % 16 * 4);
    hide Symbol;
    assert Spell([Symbol(x / 4), Symbol(x % 4 * 16 + y / 16), Symbol(y % 16 * 4)],
                 [x / 4, x % 4 * 16 + y / 16, y % 16 * 4]);
  }

  lemma ThreeStand(x: Byte, y: Byte, z: Byte)
    ensures StandFor(Group(x, y, z), [x, y, z])
  {
    SymbolIs(x / 4);
    SymbolIs(x % 4 * 16 + y / 16);
    SymbolIs(y % 16 * 4 + z / 64);
    SymbolIs(z % 64);
    hide Symbol;
    assert Spell(Group(x, y, z), [x / 4, x % 4 * 16 + y / 16, y % 16 * 4 + z / 64, z % 64]);
  }

  // ---- the cursor ----

  predicate UrlSafe(b: Byte) {
    65 <= b <= 90 || 97 <= b <= 122 || 48 <= b <= 57 || b == 45 || b == 95
  }

  // Letters, digits, hyphens and underscores only.
  lemma CursorIsUrlSafe(f: Fields)
    ensures forall b :: b in EncodeCursor(f) ==> UrlSafe(b)
  {
    PaddingReturns(Json(f));
    Base64IsSafe(Json(f));
    hide Base64, Json, Stripped;
  }

  lemma {:induction false} Base64IsSafe(b: Bytes)
    ensures forall x :: x in Base64(b) ==> UrlSafe(x) || x == PAD
  {
    if |b| >= 3 {
      Base64IsSafe(b[3..]);
    }
  }

  // "key":"text"
  function StringMember(key: Bytes, text: Text): Bytes {
    [34] + key + [34, 58, 34] + Escaped(text) + [34]
  }

  // Compact JSON between braces: epoch, hw, plan_sha and sid as strings, in this
  // order, then "v":1.
  lemma JsonIs(f: Fields)
    ensures Json(f) == [123] + StringMember([101, 112, 111, 99, 104], f.epoch)
                       + [44] + StringMember([104, 119], f.hw)
                       + [44] + StringMember([112, 108, 97, 110, 95, 115, 104, 97], f.planSha)
                       + [44] + StringMember([115, 105, 100], f.sid)
                       + [44, 34, 118, 34, 58, 49, 125]
  {
    hide Escaped, Quoted, VERSION_KEY, SID_KEY, EPOCH_KEY, HW_KEY, PLAN_KEY;
    KeysAre();
    hide Members, StringMember;
    var e, h := Member(EPOCH_KEY, f.epoch), Member(HW_KEY, f.hw);
    var p, s := Member(PLAN_KEY, f.planSha), Member(SID_KEY, f.sid);
    assert MembersOf(f) == [e] + ([h] + ([p] + ([s] + [])));
    VersionAlone();
    MembersOne([115, 105, 100], f.sid, []);
    MembersOne([112, 108, 97, 110, 95, 115, 104, 97], f.planSha, [s] + []);
    MembersOne([104, 119], f.hw, [p] + ([s] + []));
    MembersOne([101, 112, 111, 99, 104], f.epoch, [h] + ([p] + ([s] + [])));
    Reassociates(StringMember([101, 112, 111, 99, 104], f.epoch), StringMember([104, 119], f.hw),
                 StringMember([112, 108, 97, 110, 95, 115, 104, 97], f.planSha), StringMember([115, 105, 100], f.sid),
                 Members([]));
  }

  lemma Reassociates(a: Bytes, b: Bytes, c: Bytes, d: Bytes, e: Bytes)
    ensures [123] + (a + [44] + (b + [44] + (c + [44] + (d + [44] + e))))
         == [123] + a + [44] + b + [44] + c + [44] + d + ([44] + e)
  {
    assert c + [44] + (d + [44] + e) == c + [44] + d + ([44] + e);
    assert b + [44] + (c + [44] + d + ([44] + e)) == b + [44] + c + [44] + d + ([44] + e);
  }

  lemma MembersOne(key: Bytes, text: Text, more: seq<Member>)
    requires forall p :: p in key ==> Plain(p)
    ensures Members([Member(key, text)] + more) == StringMember(key, text) + [44] + Members(more)
  {
    PlainReads(key);
    assert ([Member(key, text)] + more)[1..] == more;
    hide Escaped;
  }

  lemma VersionAlone()
    ensures Members([]) == [34, 118, 34, 58, 49, 125]
  {
    VersionKeyIs();
    PlainReads([118]);
  }

  lemma VersionKeyIs()
    ensures VERSION_KEY == [118]
  {
    assert VERSION_KEY == [118];
  }

  lemma KeysAre()
    ensures SID_KEY == [115, 105, 100] && EPOCH_KEY == [101, 112, 111, 99, 104]
    ensures HW_KEY == [104, 119] && PLAN_KEY == [112, 108, 97, 110, 95, 115, 104, 97]
    ensures forall p :: p in SID_KEY + EPOCH_KEY + HW_KEY + PLAN_KEY ==> Plain(p)
  {
    KeysDiffer();
    assert SID_KEY == [115, 105, 100];
    assert EPOCH_KEY == [101, 112, 111, 99, 104];
    assert HW_KEY == [104, 119];
    assert PLAN_KEY == [112, 108, 97, 110, 95, 115, 104, 97];
  }

  // A text is taken for a cursor exactly if it decodes to an object of version 1
  // whose session and mark are strings; the rest of it is not looked at.
  lemma DecodesIff(cursor: Bytes)
    ensures var json := FromBase64(cursor + Padding(cursor));
            var obj := if json.Some? then ReadObject(json.value) else None;
            && (DecodeCursor(cursor).Some? <==> cursor != [] && obj.Some? && IsCursor(obj.value))
            && (DecodeCursor(cursor).Some? ==>
              var d := DecodeCursor(cursor).value;
              && Lookup(obj.value, SID_KEY) == Some(String(d.sid)) && Lookup(obj.value, HW_KEY) == Some(String(d.hw))
              && Lookup(obj.value, EPOCH_KEY) == d.epoch && Lookup(obj.value, PLAN_KEY) == d.planSha)
  {
    hide FromBase64, ReadObject, Padding, VERSION_KEY, SID_KEY, EPOCH_KEY, HW_KEY, PLAN_KEY;
  }

  predicate IsCursor(obj: Object) {
    && VERSION_KEY in obj && obj[VERSION_KEY] == Number(1)
    && SID_KEY in obj && obj[SID_KEY].String? && HW_KEY in obj && obj[HW_KEY].String?
  }
}
