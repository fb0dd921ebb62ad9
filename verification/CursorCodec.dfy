/** encode_cursor and decode_cursor: sorted compact JSON with every non-ASCII
    code point escaped, then base64url (section 5 of RFC 4648) without padding. */
module CursorCodec {
  import opened Wrappers

  // A Python string is a sequence of code points; lone surrogates are allowed.
  type Point = p: int | 0 <= p < 0x110000
  type Text = seq<Point>

  type Byte = b: int | 0 <= b < 256
  type Bytes = seq<Byte>

  datatype Fields = Fields(sid: Text, epoch: Text, hw: Text, planSha: Text)

  const CURSOR_VERSION := 1

  const QUOTE: Byte := 34
  const COMMA: Byte := 44
  const COLON: Byte := 58
  const BACKSLASH: Byte := 92
  const LOWER_U: Byte := 117
  const OPEN: Byte := 123
  const CLOSE: Byte := 125

  function Ascii(s: string): Bytes
    requires forall i :: 0 <= i < |s| ==> s[i] < 128 as char
  {
    if s == "" then [] else [s[0] as int] + Ascii(s[1..])
  }

  // ---- JSON strings ----

  predicate High(p: int) { 0xD800 <= p < 0xDC00 }
  predicate Low(p: int) { 0xDC00 <= p < 0xE000 }

  function HexDigit(n: int): Byte
    requires 0 <= n < 16
  {
    if n < 10 then 48 + n else 87 + n
  }

  function HexValue(b: Byte): Option<int> {
    if 48 <= b < 58 then Some(b - 48)
    else if 97 <= b < 103 then Some(b - 87)
    else if 65 <= b < 71 then Some(b - 55)
    else None
  }

  function Unicode(n: int): Bytes
    requires 0 <= n < 0x10000
  {
    [BACKSLASH, LOWER_U, HexDigit(n / 4096), HexDigit(n / 256 % 16), HexDigit(n / 16 % 16), HexDigit(n % 16)]
  }

  predicate Plain(p: int) { 32 <= p < 127 && p != QUOTE && p != BACKSLASH }

  function ShortEscape(p: int): Option<Byte> {
    if p == 34 || p == 92 then Some(p)
    else if p == 8 then Some(98)
    else if p == 9 then Some(116)
    else if p == 10 then Some(110)
    else if p == 12 then Some(102)
    else if p == 13 then Some(114)
    else None
  }

  function ShortMeaning(b: Byte): Option<Point> {
    if b == 34 || b == 92 || b == 47 then Some(b)
    else if b == 98 then Some(8)
    else if b == 116 then Some(9)
    else if b == 110 then Some(10)
    else if b == 102 then Some(12)
    else if b == 114 then Some(13)
    else None
  }

  function Escape(p: Point): Bytes {
    if Plain(p) then [p]
    else if ShortEscape(p).Some? then [BACKSLASH, ShortEscape(p).value]
    else if p < 0x10000 then Unicode(p)
    else Unicode(0xD800 + (p - 0x10000) / 0x400) + Unicode(0xDC00 + (p - 0x10000) % 0x400)
  }

  function Escaped(t: Text): Bytes {
    if t == [] then [] else Escape(t[0]) + Escaped(t[1..])
  }

  // The code unit a \uXXXX at the head of s stands for.
  function UnicodeAt(s: Bytes): Option<int> {
    if |s| < 6 || s[0] != BACKSLASH || s[1] != LOWER_U then None
    else
      match (HexValue(s[2]), HexValue(s[3]), HexValue(s[4]), HexValue(s[5]))
      case (Some(a), Some(b), Some(c), Some(d)) => Some(a * 4096 + b * 256 + c * 16 + d)
      case _ => None
  }

  datatype Scan<T> = Scan(value: T, rest: Bytes)

  // One code point of a JSON string: an escaped high surrogate takes an escaped
  // low one that follows it with it.
  function ReadPoint(s: Bytes): Option<Scan<Point>>
    ensures ReadPoint(s).Some? ==> |ReadPoint(s).value.rest| < |s|
  {
    if s == [] || s[0] == QUOTE || s[0] < 32 || s[0] > 127 then None
    else if s[0] != BACKSLASH then Some(Scan(s[0], s[1..]))
    else if UnicodeAt(s).Some? then
      var first := UnicodeAt(s).value;
      HexIsPoint(s);
      if High(first) && UnicodeAt(s[6..]).Some? && Low(UnicodeAt(s[6..]).value)
      then Some(Scan(Pair(first, UnicodeAt(s[6..]).value), s[12..]))
      else Some(Scan(first, s[6..]))
    else if |s| > 1 && ShortMeaning(s[1]).Some? then Some(Scan(ShortMeaning(s[1]).value, s[2..]))
    else None
  }

  function Pair(high: int, low: int): Point
    requires High(high) && Low(low)
  {
    0x10000 + (high - 0xD800) * 0x400 + (low - 0xDC00)
  }

  lemma HexIsPoint(s: Bytes)
    requires UnicodeAt(s).Some?
    ensures 0 <= UnicodeAt(s).value < 0x10000
  {
  }

  // The rest of a JSON string, up to and over its closing quote.
  function ReadString(s: Bytes): (r: Option<Scan<Text>>)
    ensures r.Some? ==> |r.value.rest| < |s|
    decreases |s|
  {
    if s != [] && s[0] == QUOTE then Some(Scan([], s[1..]))
    else
      match ReadPoint(s)
      case None => None
      case Some(Scan(p, rest)) =>
        match ReadString(rest)
        case None => None
        case Some(Scan(t, tail)) => Some(Scan([p] + t, tail))
  }

  // What reading an escaped string gives back: adjacent surrogates joined.
  function Joined(t: Text): Text
    decreases |t|
  {
    if t == [] then []
    else if |t| > 1 && High(t[0]) && Low(t[1]) then [Pair(t[0], t[1])] + Joined(t[2..])
    else [t[0]] + Joined(t[1..])
  }

  predicate SplitPair(t: Text) {
    exists i :: 0 <= i < |t| - 1 && High(t[i]) && Low(t[i + 1])
  }

  lemma {:induction false} JoinedShrinks(t: Text)
    ensures |Joined(t)| <= |t|
    ensures SplitPair(t) ==> |Joined(t)| < |t|
    ensures !SplitPair(t) ==> Joined(t) == t
    decreases |t|
  {
    if t != [] {
      if |t| > 1 && High(t[0]) && Low(t[1]) {
        JoinedShrinks(t[2..]);
      } else {
        JoinedShrinks(t[1..]);
        if SplitPair(t) {
          var i :| 0 <= i < |t| - 1 && High(t[i]) && Low(t[i + 1]);
          assert High(t[1..][i - 1]) && Low(t[1..][i]);
        }
        if SplitPair(t[1..]) {
          var i :| 0 <= i < |t[1..]| - 1 && High(t[1..][i]) && Low(t[1..][i + 1]);
          assert High(t[i + 1]) && Low(t[i + 2]);
        }
      }
    }
  }

  lemma HexDigits(n: int)
    requires 0 <= n < 0x10000
    ensures n == n / 4096 * 4096 + n / 256 % 16 * 256 + n / 16 % 16 * 16 + n % 16
    ensures n / 4096 < 16
  {
    assert n / 16 == n / 256 * 16 + n / 16 % 16;
    assert n / 256 == n / 4096 * 16 + n / 256 % 16;
  }

  lemma UnicodeReads(n: int, tail: Bytes)
    requires 0 <= n < 0x10000
    ensures UnicodeAt(Unicode(n) + tail) == Some(n) && (Unicode(n) + tail)[6..] == tail
    ensures |Unicode(n)| == 6 && Unicode(n)[0] == BACKSLASH
  {
    HexDigits(n);
    assert forall k :: 0 <= k < 16 ==> HexValue(HexDigit(k)) == Some(k);
  }

  // Escaping a point and reading on gives it back, unless it is a high surrogate
  // with a low one escaped right behind it.
  lemma PointReads(p: Point, tail: Bytes)
    requires High(p) ==> UnicodeAt(tail).None? || !Low(UnicodeAt(tail).value)
    ensures ReadPoint(Escape(p) + tail) == Some(Scan(p, tail))
  {
    if Plain(p) || ShortEscape(p).Some? {
    } else if p < 0x10000 {
      UnicodeReads(p, tail);
    } else {
      SupplementaryReads(p, tail);
    }
  }

  lemma SupplementaryReads(p: Point, tail: Bytes)
    requires p >= 0x10000
    ensures ReadPoint(Escape(p) + tail) == Some(Scan(p, tail))
  {
    hide Unicode, UnicodeAt;
    var high, low := 0xD800 + (p - 0x10000) / 0x400, 0xDC00 + (p - 0x10000) % 0x400;
    UnicodeReads(low, tail);
    UnicodeReads(high, Unicode(low) + tail);
    assert Escape(p) + tail == Unicode(high) + (Unicode(low) + tail);
    assert (Escape(p) + tail)[12..] == (Unicode(low) + tail)[6..];
    assert Pair(high, low) == p;
  }

  lemma SurrogatesJoin(high: Point, low: Point, tail: Bytes)
    requires High(high) && Low(low)
    ensures ReadPoint(Escape(high) + (Escape(low) + tail)) == Some(Scan(Pair(high, low), tail))
  {
    UnicodeReads(low, tail);
    UnicodeReads(high, Unicode(low) + tail);
    assert (Unicode(high) + (Unicode(low) + tail))[12..] == (Unicode(low) + tail)[6..];
  }

  // The first escape of a string is a \uXXXX of a low surrogate only if its
  // first point is one.
  lemma HeadOfEscaped(t: Text, tail: Bytes)
    requires tail != [] && tail[0] == QUOTE
    requires t == [] || !Low(t[0])
    ensures UnicodeAt(Escaped(t) + tail).None? || !Low(UnicodeAt(Escaped(t) + tail).value)
  {
    hide Escape, UnicodeAt;
    if t == [] {
      NoEscapeAt(tail);
    } else {
      assert Escaped(t) + tail == Escape(t[0]) + (Escaped(t[1..]) + tail);
      HeadOfEscape(t[0], Escaped(t[1..]) + tail);
    }
  }

  lemma NoEscapeAt(tail: Bytes)
    requires tail != [] && tail[0] == QUOTE
    ensures UnicodeAt([] + tail).None?
  {
  }

  lemma HeadOfEscape(p: Point, more: Bytes)
    requires !Low(p)
    ensures UnicodeAt(Escape(p) + more).None? || !Low(UnicodeAt(Escape(p) + more).value)
  {
    if Plain(p) || ShortEscape(p).Some? {
    } else if p < 0x10000 {
      UnicodeReads(p, more);
    } else {
      var high, low := 0xD800 + (p - 0x10000) / 0x400, 0xDC00 + (p - 0x10000) % 0x400;
      UnicodeReads(high, Unicode(low) + more);
      assert Escape(p) + more == Unicode(high) + (Unicode(low) + more);
    }
  }

  lemma {:induction false} StringReads(t: Text, rest: Bytes)
    ensures ReadString(Escaped(t) + ([QUOTE] + rest)) == Some(Scan(Joined(t), rest))
    decreases |t|
  {
    hide Escape, ReadPoint, UnicodeAt;
    var tail := [QUOTE] + rest;
    if t == [] {
      assert Escaped(t) + tail == tail;
    } else if |t| > 1 && High(t[0]) && Low(t[1]) {
      var more := Escaped(t[2..]) + tail;
      StringReads(t[2..], rest);
      SurrogatesJoin(t[0], t[1], more);
      assert t[1..][1..] == t[2..];
      assert Escaped(t) + tail == Escape(t[0]) + (Escape(t[1]) + more);
      PointThenString(t[0], Escape(t[1]) + more, Pair(t[0], t[1]), more, Joined(t[2..]), rest);
    } else {
      var more := Escaped(t[1..]) + tail;
      StringReads(t[1..], rest);
      if High(t[0]) {
        HeadOfEscaped(t[1..], tail);
      }
      PointReads(t[0], more);
      assert Escaped(t) + tail == Escape(t[0]) + more;
      PointThenString(t[0], more, t[0], more, Joined(t[1..]), rest);
    }
  }

  lemma PointThenString(p: Point, tail: Bytes, got: Point, more: Bytes, t: Text, rest: Bytes)
    requires ReadPoint(Escape(p) + tail) == Some(Scan(got, more)) && ReadString(more) == Some(Scan(t, rest))
    ensures ReadString(Escape(p) + tail) == Some(Scan([got] + t, rest))
  {
  }

  lemma {:induction false} PlainReads(t: Text)
    requires forall p :: p in t ==> Plain(p)
    ensures Escaped(t) == t && Joined(t) == t
  {
    if t != [] {
      PlainReads(t[1..]);
    }
  }

  // ---- JSON objects of strings and numbers, as the encoder writes them ----

  datatype Value = String(text: Text) | Number(n: nat)

  type Object = map<Text, Value>

  function ReadNumber(s: Bytes, sofar: nat): Scan<nat>
    ensures |ReadNumber(s, sofar).rest| <= |s|
  {
    if s != [] && 48 <= s[0] < 58 then ReadNumber(s[1..], sofar * 10 + (s[0] - 48)) else Scan(sofar, s)
  }

  function ReadValue(s: Bytes): Option<Scan<Value>>
    ensures ReadValue(s).Some? ==> |ReadValue(s).value.rest| < |s|
  {
    if s == [] then None
    else if s[0] == QUOTE then
      match ReadString(s[1..])
      case None => None
      case Some(Scan(t, rest)) => Some(Scan(String(t), rest))
    else if 48 <= s[0] < 58 then
      var number := ReadNumber(s[1..], s[0] - 48);
      Some(Scan(Number(number.value), number.rest))
    else None
  }

  // The members of an object whose opening brace is read.
  function ReadMembers(s: Bytes, obj: Object): Option<Object>
    decreases |s|
  {
    if s == [] || s[0] != QUOTE then None
    else
      match ReadString(s[1..])
      case None => None
      case Some(Scan(key, after)) =>
        if after == [] || after[0] != COLON then None
        else
          match ReadValue(after[1..])
          case None => None
          case Some(Scan(value, rest)) =>
            if rest == [CLOSE] then Some(obj[key := value])
            else if rest != [] && rest[0] == COMMA then ReadMembers(rest[1..], obj[key := value])
            else None
  }

  function ReadObject(s: Bytes): Option<Object> {
    if s == [] || s[0] != OPEN then None
    else if s == [OPEN, CLOSE] then Some(map[])
    else ReadMembers(s[1..], map[])
  }

  function Quoted(t: Text): Bytes { [QUOTE] + Escaped(t) + [QUOTE] }

  datatype Member = Member(key: Text, text: Text)

  // String members in order, and the version last.
  function Members(members: seq<Member>): Bytes {
    if members == [] then Quoted(VERSION_KEY) + [COLON, 48 + CURSOR_VERSION, CLOSE]
    else Quoted(members[0].key) + [COLON] + Quoted(members[0].text) + [COMMA] + Members(members[1..])
  }

  const VERSION_KEY: Text := Ascii("v")
  const SID_KEY: Text := Ascii("sid")
  const EPOCH_KEY: Text := Ascii("epoch")
  const HW_KEY: Text := Ascii("hw")
  const PLAN_KEY: Text := Ascii("plan_sha")

  // json.dumps sorts the keys: epoch, hw, plan_sha, sid, v.
  function MembersOf(f: Fields): seq<Member> {
    [Member(EPOCH_KEY, f.epoch), Member(HW_KEY, f.hw), Member(PLAN_KEY, f.planSha), Member(SID_KEY, f.sid)]
  }

  function Json(f: Fields): Bytes { [OPEN] + Members(MembersOf(f)) }

  function Collected(members: seq<Member>, obj: Object): Object
    decreases |members|
  {
    if members == [] then obj[VERSION_KEY := Number(CURSOR_VERSION)]
    else Collected(members[1..], obj[members[0].key := String(Joined(members[0].text))])
  }

  lemma MembersRead(members: seq<Member>, obj: Object)
    requires forall m :: m in members ==> forall p :: p in m.key ==> Plain(p)
    ensures ReadMembers(Members(members), obj) == Some(Collected(members, obj))
    decreases |members|
  {
    hide Escaped, Joined, ReadString;
    if members == [] {
      var rest := [COLON, 48 + CURSOR_VERSION, CLOSE];
      assert Members([]) == [QUOTE] + (Escaped(VERSION_KEY) + ([QUOTE] + rest));
      StringReads(VERSION_KEY, rest);
      PlainReads(VERSION_KEY);
      assert ReadNumber([CLOSE], 1) == Scan(1, [CLOSE]);
    } else {
      var m := members[0];
      assert Members(members) == Quoted(m.key) + [COLON] + Quoted(m.text) + [COMMA] + Members(members[1..]);
      MemberReads(m, Members(members[1..]), obj);
      MembersRead(members[1..], obj[m.key := String(Joined(m.text))]);
    }
  }

  lemma MemberReads(m: Member, more: Bytes, obj: Object)
    requires forall p :: p in m.key ==> Plain(p)
    ensures ReadMembers(Quoted(m.key) + [COLON] + Quoted(m.text) + [COMMA] + more, obj)
         == ReadMembers(more, obj[m.key := String(Joined(m.text))])
  {
    hide Escaped, Joined, ReadString;
    var rest := [COMMA] + more;
    var value := [QUOTE] + (Escaped(m.text) + ([QUOTE] + rest));
    var all := [QUOTE] + (Escaped(m.key) + ([QUOTE] + ([COLON] + value)));
    assert Quoted(m.key) + [COLON] + Quoted(m.text) + [COMMA] + more == all;
    StringReads(m.key, [COLON] + value);
    PlainReads(m.key);
    StringReads(m.text, rest);
    ValueReads(value, m.text, rest);
    assert all[1..] == Escaped(m.key) + ([QUOTE] + ([COLON] + value)) && ([COLON] + value)[1..] == value;
    assert rest[1..] == more && rest[0] == COMMA && [CLOSE][0] != COMMA;
  }

  lemma ValueReads(value: Bytes, text: Text, rest: Bytes)
    requires value == [QUOTE] + (Escaped(text) + ([QUOTE] + rest))
    ensures ReadValue(value) == Some(Scan(String(Joined(text)), rest))
  {
    hide Escaped, Joined, ReadString;
    StringReads(text, rest);
    assert value[1..] == Escaped(text) + ([QUOTE] + rest);
  }

  // decode_cursor keeps the members it does not check as they are.
  datatype Decoded = Decoded(sid: Text, epoch: Option<Value>, hw: Text, planSha: Option<Value>)

  function FieldsOf(obj: Object): Option<Decoded> {
    if Lookup(obj, VERSION_KEY) != Some(Number(CURSOR_VERSION)) then None
    else
      var sid: Option<Value>, hw: Option<Value> := Lookup(obj, SID_KEY), Lookup(obj, HW_KEY);
      if sid.Some? && sid.value.String? && hw.Some? && hw.value.String?
      then Some(Decoded(sid.value.text, Lookup(obj, EPOCH_KEY), hw.value.text, Lookup(obj, PLAN_KEY)))
      else None
  }

  function AllJoined(f: Fields): Decoded {
    Decoded(Joined(f.sid), Some(String(Joined(f.epoch))), Joined(f.hw), Some(String(Joined(f.planSha))))
  }

  lemma KeysDiffer()
    ensures VERSION_KEY != SID_KEY && VERSION_KEY != EPOCH_KEY && VERSION_KEY != HW_KEY && VERSION_KEY != PLAN_KEY
    ensures SID_KEY != EPOCH_KEY && SID_KEY != HW_KEY && SID_KEY != PLAN_KEY
    ensures EPOCH_KEY != HW_KEY && EPOCH_KEY != PLAN_KEY && HW_KEY != PLAN_KEY
    ensures forall p :: p in SID_KEY + EPOCH_KEY + HW_KEY + PLAN_KEY ==> Plain(p)
  {
    assert VERSION_KEY == [118] && VERSION_KEY[0] == 118;
    assert SID_KEY == [115, 105, 100] && SID_KEY[0] == 115;
    assert EPOCH_KEY == [101, 112, 111, 99, 104] && EPOCH_KEY[0] == 101;
    assert HW_KEY == [104, 119] && HW_KEY[0] == 104;
    assert PLAN_KEY == [112, 108, 97, 110, 95, 115, 104, 97] && PLAN_KEY[0] == 112;
  }

  lemma JsonReads(f: Fields)
    ensures ReadObject(Json(f)).Some? && FieldsOf(ReadObject(Json(f)).value) == Some(AllJoined(f))
  {
    hide Escaped, Joined, ReadString, Members;
    var members := MembersOf(f);
    KeysDiffer();
    forall m | m in members ensures forall p :: p in m.key ==> Plain(p) {
      assert forall p :: p in m.key ==> p in SID_KEY + EPOCH_KEY + HW_KEY + PLAN_KEY;
    }
    MembersRead(members, map[]);
    MembersStart(members);
    assert Json(f)[1..] == Members(members);
    CollectedFields(f);
  }

  lemma MembersStart(members: seq<Member>)
    ensures |Members(members)| > 1 && Members(members)[0] == QUOTE
  {
  }

  lemma CollectedFields(f: Fields)
    ensures FieldsOf(Collected(MembersOf(f), map[])) == Some(AllJoined(f))
  {
    hide Joined;
    hide VERSION_KEY, SID_KEY, EPOCH_KEY, HW_KEY, PLAN_KEY;
    KeysDiffer();
    var e, h := Member(EPOCH_KEY, f.epoch), Member(HW_KEY, f.hw);
    var p, s := Member(PLAN_KEY, f.planSha), Member(SID_KEY, f.sid);
    var o1: Object := map[e.key := String(Joined(e.text))];
    var o2 := o1[h.key := String(Joined(h.text))];
    var o3 := o2[p.key := String(Joined(p.text))];
    var o4 := o3[s.key := String(Joined(s.text))];
    assert MembersOf(f) == [e, h, p, s] && [e, h, p, s][1..] == [h, p, s];
    assert Collected([e, h, p, s], map[]) == Collected([h, p, s], o1);
    assert [h, p, s][1..] == [p, s] && Collected([h, p, s], o1) == Collected([p, s], o2);
    assert [p, s][1..] == [s] && Collected([p, s], o2) == Collected([s], o3);
    assert [s][1..] == [] && Collected([s], o3) == Collected([], o4);
  }

  // ---- base64url ----

  const PAD: Byte := 61

  function Symbol(n: int): Byte
    requires 0 <= n < 64
  {
    if n < 26 then 65 + n else if n < 52 then 71 + n else if n < 62 then n - 4 else if n == 62 then 45 else 95
  }

  function SextetOf(b: Byte): Option<int> {
    if 65 <= b < 91 then Some(b - 65)
    else if 97 <= b < 123 then Some(b - 71)
    else if 48 <= b < 58 then Some(b + 4)
    else if b == 45 then Some(62)
    else if b == 95 then Some(63)
    else None
  }

  function Base64(b: Bytes): Bytes {
    if b == [] then []
    else if |b| == 1 then [Symbol(b[0] / 4), Symbol(b[0] % 4 * 16), PAD, PAD]
    else if |b| == 2 then [Symbol(b[0] / 4), Symbol(b[0] % 4 * 16 + b[1] / 16), Symbol(b[1] % 16 * 4), PAD]
    else Group(b[0], b[1], b[2]) + Base64(b[3..])
  }

  function Group(x: Byte, y: Byte, z: Byte): Bytes {
    [Symbol(x / 4), Symbol(x % 4 * 16 + y / 16), Symbol(y % 16 * 4 + z / 64), Symbol(z % 64)]
  }

  function Ungroup(s: Bytes): Option<Bytes>
    requires |s| == 4
  {
    match (SextetOf(s[0]), SextetOf(s[1]), SextetOf(s[2]), SextetOf(s[3]))
    case (Some(a), Some(b), Some(c), Some(d)) =>
      SextetRange(s[0]);
      SextetRange(s[1]);
      SextetRange(s[2]);
      SextetRange(s[3]);
      Some([a * 4 + b / 16, b % 16 * 16 + c / 4, c % 4 * 64 + d])
    case (Some(a), Some(b), Some(c), None) =>
      SextetRange(s[0]);
      SextetRange(s[1]);
      SextetRange(s[2]);
      if s[3] == PAD then Some([a * 4 + b / 16, b % 16 * 16 + c / 4]) else None
    case (Some(a), Some(b), None, None) =>
      SextetRange(s[0]);
      SextetRange(s[1]);
      if s[2] == PAD && s[3] == PAD then Some([a * 4 + b / 16]) else None
    case _ => None
  }

  lemma SextetRange(b: Byte)
    ensures SextetOf(b).Some? ==> 0 <= SextetOf(b).value < 64
  {
  }

  // Only the last group may be padded.
  function FromBase64(s: Bytes): Option<Bytes> {
    if s == [] then Some([])
    else if |s| < 4 then None
    else
      match Ungroup(s[..4])
      case None => None
      case Some(head) =>
        if |head| < 3 then (if |s| == 4 then Some(head) else None)
        else
          match FromBase64(s[4..])
          case None => None
          case Some(tail) => Some(head + tail)
  }

  function Stripped(s: Bytes): Bytes {
    if s != [] && s[|s| - 1] == PAD then Stripped(s[..|s| - 1]) else s
  }

  function Padding(s: Bytes): Bytes {
    match |s| % 4
    case 0 => []
    case 1 => [PAD, PAD, PAD]
    case 2 => [PAD, PAD]
    case _ => [PAD]
  }

  lemma SymbolReads(n: int)
    requires 0 <= n < 64
    ensures SextetOf(Symbol(n)) == Some(n) && Symbol(n) != PAD
  {
  }

  lemma UngroupSymbols(a: int, b: int, c: int, d: int)
    requires 0 <= a < 64 && 0 <= b < 64 && 0 <= c < 64 && 0 <= d < 64
    ensures var last := [Symbol(a), Symbol(b), Symbol(c), Symbol(d)];
            Ungroup(last) == Some([a * 4 + b / 16, b % 16 * 16 + c / 4, c % 4 * 64 + d])
    ensures Ungroup([Symbol(a), Symbol(b), Symbol(c), PAD]) == Some([a * 4 + b / 16, b % 16 * 16 + c / 4])
    ensures Ungroup([Symbol(a), Symbol(b), PAD, PAD]) == Some([a * 4 + b / 16])
  {
    hide Symbol;
    SymbolReads(a);
    SymbolReads(b);
    SymbolReads(c);
    SymbolReads(d);
  }

  lemma GroupReads(x: Byte, y: Byte, z: Byte)
    ensures Ungroup(Group(x, y, z)) == Some([x, y, z])
  {
    hide Ungroup, Symbol;
    var a, b, c, d := x / 4, x % 4 * 16 + y / 16, y % 16 * 4 + z / 64, z % 64;
    SextetsJoin(x, y, z);
    UngroupSymbols(a, b, c, d);
  }

  lemma SextetsJoin(x: Byte, y: Byte, z: Byte)
    ensures var a, b, c, d := x / 4, x % 4 * 16 + y / 16, y % 16 * 4 + z / 64, z % 64;
            && 0 <= a < 64 && 0 <= b < 64 && 0 <= c < 64 && 0 <= d < 64
            && a * 4 + b / 16 == x && b % 16 * 16 + c / 4 == y && c % 4 * 64 + d == z
  {
  }

  lemma LastGroupReads(b: Bytes)
    requires 0 < |b| < 3
    ensures |Base64(b)| == 4 && Ungroup(Base64(b)) == Some(b)
  {
    hide Ungroup, Symbol;
    if |b| == 1 {
      UngroupSymbols(b[0] / 4, b[0] % 4 * 16, 0, 0);
      assert b == [b[0]];
    } else {
      UngroupSymbols(b[0] / 4, b[0] % 4 * 16 + b[1] / 16, b[1] % 16 * 4, 0);
      assert b == [b[0], b[1]];
    }
  }

  lemma {:induction false} Base64Reads(b: Bytes)
    ensures FromBase64(Base64(b)) == Some(b)
  {
    hide Ungroup, Group;
    if 0 < |b| < 3 {
      LastGroupReads(b);
      assert Base64(b)[..4] == Base64(b);
    } else if |b| >= 3 {
      Base64Reads(b[3..]);
      GroupReads(b[0], b[1], b[2]);
      GroupSize(b[0], b[1], b[2]);
      var s := Group(b[0], b[1], b[2]) + Base64(b[3..]);
      assert s[..4] == Group(b[0], b[1], b[2]) && s[4..] == Base64(b[3..]);
      assert b == [b[0], b[1], b[2]] + b[3..];
    }
  }

  lemma GroupSize(x: Byte, y: Byte, z: Byte)
    ensures |Group(x, y, z)| == 4 && PAD !in Group(x, y, z)
  {
  }

  lemma {:induction false} Unpadded(b: Bytes) returns (bare: Bytes)
    ensures PAD !in bare && Base64(b) == bare + Padding(bare)
  {
    hide Group, Symbol;
    if b == [] {
      bare := [];
    } else if |b| == 1 {
      SymbolReads(b[0] / 4);
      SymbolReads(b[0] % 4 * 16);
      bare := [Symbol(b[0] / 4), Symbol(b[0] % 4 * 16)];
    } else if |b| == 2 {
      SymbolReads(b[0] / 4);
      SymbolReads(b[0] % 4 * 16 + b[1] / 16);
      SymbolReads(b[1] % 16 * 4);
      bare := [Symbol(b[0] / 4), Symbol(b[0] % 4 * 16 + b[1] / 16), Symbol(b[1] % 16 * 4)];
    } else {
      var more := Unpadded(b[3..]);
      GroupSize(b[0], b[1], b[2]);
      bare := Group(b[0], b[1], b[2]) + more;
      assert Padding(bare) == Padding(more);
    }
  }

  // Stripping the padding and restoring it from the length gives the text back.
  lemma PaddingReturns(b: Bytes)
    ensures Stripped(Base64(b)) + Padding(Stripped(Base64(b))) == Base64(b)
    ensures PAD !in Stripped(Base64(b))
  {
    hide Base64;
    var bare := Unpadded(b);
    StripTail(bare, Padding(bare));
    StripPads(bare);
    assert bare + [] == bare;
  }

  lemma StripPads(s: Bytes)
    ensures Stripped(Padding(s)) == []
  {
    assert Stripped([PAD]) == [];
    assert [PAD, PAD][..1] == [PAD] && Stripped([PAD, PAD]) == [];
    assert [PAD, PAD, PAD][..2] == [PAD, PAD];
  }

  lemma {:induction false} StripTail(head: Bytes, tail: Bytes)
    requires PAD !in head
    ensures Stripped(head + tail) == head + Stripped(tail)
  {
    if tail == [] {
      assert head + tail == head;
      assert head != [] ==> head[|head| - 1] in head;
    } else if tail[|tail| - 1] == PAD {
      StripTail(head, tail[..|tail| - 1]);
      assert (head + tail)[..|head + tail| - 1] == head + tail[..|tail| - 1];
    }
  }

  // ---- the cursor ----

  function EncodeCursor(f: Fields): Bytes {
    Stripped(Base64(Json(f)))
  }

  function DecodeCursor(cursor: Bytes): Option<Decoded> {
    if cursor == [] then None
    else
      match FromBase64(cursor + Padding(cursor))
      case None => None
      case Some(json) =>
        match ReadObject(json)
        case None => None
        case Some(obj) => FieldsOf(obj)
  }

  function Verbatim(f: Fields): Decoded {
    Decoded(f.sid, Some(String(f.epoch)), f.hw, Some(String(f.planSha)))
  }

  predicate AnySplitPair(f: Fields) {
    SplitPair(f.sid) || SplitPair(f.epoch) || SplitPair(f.hw) || SplitPair(f.planSha)
  }

  lemma CursorReads(f: Fields)
    ensures DecodeCursor(EncodeCursor(f)) == Some(AllJoined(f))
  {
    hide Json, ReadObject, FieldsOf, Stripped, AllJoined;
    JsonReads(f);
    Base64Reads(Json(f));
    PaddingReturns(Json(f));
    assert EncodeCursor(f) != [] by {
      JsonIsSomething(f);
    }
  }

  lemma JsonIsSomething(f: Fields)
    ensures Stripped(Base64(Json(f))) != []
  {
    SymbolReads(OPEN / 4);
    StripKeepsHead(Base64(Json(f)));
  }

  lemma {:induction false} StripKeepsHead(s: Bytes)
    requires s != [] && s[0] != PAD
    ensures Stripped(s) != []
  {
    if s[|s| - 1] == PAD {
      StripKeepsHead(s[..|s| - 1]);
    }
  }

  // The round trip holds for exactly the strings in which no high surrogate is
  // directly followed by a low one.
  lemma CursorRoundTrips(f: Fields)
    ensures DecodeCursor(EncodeCursor(f)) == Some(Verbatim(f)) <==> !AnySplitPair(f)
  {
    CursorReads(f);
    JoinedShrinks(f.sid);
    JoinedShrinks(f.epoch);
    JoinedShrinks(f.hw);
    JoinedShrinks(f.planSha);
  }

  // Different cursors are different strings, and travel as URL-safe text.
  lemma CursorsAreDistinct(f: Fields, g: Fields)
    requires !AnySplitPair(f) && !AnySplitPair(g) && EncodeCursor(f) == EncodeCursor(g)
    ensures f == g
  {
    CursorRoundTrips(f);
    CursorRoundTrips(g);
  }
}
