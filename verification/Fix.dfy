/** The FIX 4.2 builder and parser (`services/bot-fleet/bots/fix_bot.go`). A character stands for one byte. */
module Fix {
  const SOH: char := 1 as char

  // ----- decimal numbers -----

  function Digit(d: nat): char
    requires d < 10
  {
    (48 + d) as char
  }

  function Itoa(n: nat): (s: string)
    ensures |s| >= 1
  {
    if n < 10 then [Digit(n)] else Itoa(n / 10) + [Digit(n % 10)]
  }

  predicate Decimal(s: string) {
    forall i :: 0 <= i < |s| ==> '0' <= s[i] <= '9'
  }

  function Atoi(s: string): nat
    requires Decimal(s)
  {
    if s == [] then 0 else 10 * Atoi(s[..|s| - 1]) + (s[|s| - 1] as int - 48)
  }

  lemma {:induction false} ItoaAtoi(n: nat)
    ensures Decimal(Itoa(n)) && Atoi(Itoa(n)) == n
  {
    if n >= 10 {
      ItoaAtoi(n / 10);
      assert Itoa(n)[..|Itoa(n)| - 1] == Itoa(n / 10);
    } else {
      assert [Digit(n)][..0] == [];
    }
  }

  /** A byte as the three digits of the checksum field. */
  function ThreeDigits(n: nat): string
    requires n < 256
  {
    [Digit(n / 100), Digit(n / 10 % 10), Digit(n % 10)]
  }

  lemma ThreeDigitsAtoi(n: nat)
    requires n < 256
    ensures Decimal(ThreeDigits(n)) && Atoi(ThreeDigits(n)) == n
  {
    var s := ThreeDigits(n);
    assert s[..2][..1] == s[..1] && s[..1][..0] == [];
    assert Atoi(s[..1]) == n / 100;
    assert Atoi(s[..2]) == 10 * (n / 100) + n / 10 % 10;
  }

  // ----- splitting -----

  /** The position of the first c, or the length. */
  function IndexOf(s: string, c: char): (i: nat)
    ensures i <= |s| && c !in s[..i] && (i < |s| ==> s[i] == c) && (i == |s| <==> c !in s)
  {
    if s == [] || s[0] == c then 0 else 1 + IndexOf(s[1..], c)
  }

  function Split(s: string, sep: char): (r: seq<string>)
    ensures |r| >= 1
  {
    var i := IndexOf(s, sep);
    if i == |s| then [s] else [s[..i]] + Split(s[i + 1..], sep)
  }

  lemma {:induction false} IndexAfter(a: string, c: char, b: string)
    requires c !in a
    ensures IndexOf(a + [c] + b, c) == |a|
  {
    if a == [] {
    } else {
      assert (a + [c] + b)[1..] == a[1..] + [c] + b;
      IndexAfter(a[1..], c, b);
    }
  }

  lemma SplitAfter(a: string, sep: char, b: string)
    requires sep !in a
    ensures Split(a + [sep] + b, sep) == [a] + Split(b, sep)
  {
    var s := a + [sep] + b;
    IndexAfter(a, sep, b);
    assert s[..|a|] == a && s[|a| + 1..] == b;
  }

  // ----- fields -----

  datatype Field = Field(tag: string, value: string)

  function Piece(f: Field): string {
    f.tag + ['='] + f.value
  }

  /** Fields as they go on the wire, each closed by a separator. */
  function Render(fields: seq<Field>): string {
    if fields == [] then "" else Piece(fields[0]) + [SOH] + Render(fields[1..])
  }

  /** A tag without separator or equals sign; every tag of the standard is a number. */
  predicate TagOk(f: Field) {
    '=' !in f.tag && SOH !in f.tag
  }

  predicate Clean(f: Field) {
    TagOk(f) && SOH !in f.value
  }

  predicate AllClean(fields: seq<Field>) {
    forall f :: f in fields ==> Clean(f)
  }

  /** What the fields say, a later one overriding an earlier one of the same tag. */
  function Meaning(m: map<string, string>, fields: seq<Field>): map<string, string>
    decreases |fields|
  {
    if fields == [] then m else Meaning(m[fields[0].tag := fields[0].value], fields[1..])
  }

  /** One piece of a message: a pair when there is an equals sign, otherwise nothing. */
  function ReadPiece(m: map<string, string>, piece: string): map<string, string> {
    var i := IndexOf(piece, '=');
    if i == |piece| then m else m[piece[..i] := piece[i + 1..]]
  }

  function ReadPieces(m: map<string, string>, pieces: seq<string>): map<string, string>
    decreases |pieces|
  {
    if pieces == [] then m else ReadPieces(ReadPiece(m, pieces[0]), pieces[1..])
  }

  function Parse(raw: string): map<string, string> {
    ReadPieces(map[], Split(raw, SOH))
  }

  lemma ReadPieceOf(m: map<string, string>, f: Field)
    requires TagOk(f)
    ensures ReadPiece(m, Piece(f)) == m[f.tag := f.value]
  {
    IndexAfter(f.tag, '=', f.value);
    assert Piece(f)[..|f.tag|] == f.tag && Piece(f)[|f.tag| + 1..] == f.value;
  }

  /** Reading rendered fields and then more text is reading the text on top of what the fields say. */
  lemma {:induction false} ReadRendered(m: map<string, string>, fields: seq<Field>, rest: string)
    requires AllClean(fields)
    ensures ReadPieces(m, Split(Render(fields) + rest, SOH)) == ReadPieces(Meaning(m, fields), Split(rest, SOH))
    decreases |fields|
  {
    if fields == [] {
      assert Render(fields) + rest == rest;
    } else {
      var f, later := fields[0], fields[1..];
      var m' := m[f.tag := f.value];
      assert f in fields && Clean(f);
      NoSeparator(f);
      assert Render(fields) + rest == Piece(f) + [SOH] + (Render(later) + rest);
      SplitAfter(Piece(f), SOH, Render(later) + rest);
      var pieces := Split(Render(later) + rest, SOH);
      assert ([Piece(f)] + pieces)[1..] == pieces;
      ReadPieceOf(m, f);
      assert forall g :: g in later ==> g in fields;
      ReadRendered(m', later, rest);
    }
  }

  lemma NoSeparator(f: Field)
    requires Clean(f)
    ensures SOH !in Piece(f)
  {
    assert SOH != '=';
  }

  lemma ReadNothing(m: map<string, string>)
    ensures ReadPieces(m, Split("", SOH)) == m
  {
    assert Split("", SOH) == [""];
    assert [""][1..] == [];
    assert ReadPiece(m, "") == m;
  }

  /** Rendering and parsing recovers what the fields say. */
  lemma RoundTrip(fields: seq<Field>)
    requires AllClean(fields)
    ensures Parse(Render(fields)) == Meaning(map[], fields)
  {
    ReadRendered(map[], fields, "");
    assert Render(fields) + "" == Render(fields);
    ReadNothing(Meaning(map[], fields));
  }

  predicate DistinctTags(fields: seq<Field>) {
    forall i, j :: 0 <= i < j < |fields| ==> fields[i].tag != fields[j].tag
  }

  /** With distinct tags, every field means its own value. */
  lemma {:induction false} MeaningOfEach(m: map<string, string>, fields: seq<Field>, i: nat)
    requires DistinctTags(fields) && i < |fields|
    ensures fields[i].tag in Meaning(m, fields) && Meaning(m, fields)[fields[i].tag] == fields[i].value
    decreases |fields|
  {
    var m' := m[fields[0].tag := fields[0].value];
    assert forall j, k :: 0 <= j < k < |fields[1..]| ==>
             fields[1..][j] == fields[j + 1] && fields[1..][k] == fields[k + 1];
    if i > 0 {
      MeaningOfEach(m', fields[1..], i - 1);
    } else {
      MeaningKeeps(m', fields[1..], fields[0].tag);
    }
  }

  lemma {:induction false} MeaningKeeps(m: map<string, string>, fields: seq<Field>, tag: string)
    requires tag in m && forall i :: 0 <= i < |fields| ==> fields[i].tag != tag
    ensures tag in Meaning(m, fields) && Meaning(m, fields)[tag] == m[tag]
    decreases |fields|
  {
    if fields == [] {
    } else {
      MeaningKeeps(m[fields[0].tag := fields[0].value], fields[1..], tag);
    }
  }

  /** No parsed value contains a separator. */
  predicate Separated(m: map<string, string>) {
    forall tag :: tag in m ==> SOH !in m[tag]
  }

  lemma {:induction false} SplitSeparates(s: string, sep: char)
    ensures forall i :: 0 <= i < |Split(s, sep)| ==> sep !in Split(s, sep)[i]
    decreases |s|
  {
    var i := IndexOf(s, sep);
    if i < |s| {
      SplitSeparates(s[i + 1..], sep);
    }
  }

  lemma {:induction false} ReadSeparates(m: map<string, string>, pieces: seq<string>)
    requires Separated(m) && forall i :: 0 <= i < |pieces| ==> SOH !in pieces[i]
    ensures Separated(ReadPieces(m, pieces))
    decreases |pieces|
  {
    if pieces == [] {
    } else {
      var i := IndexOf(pieces[0], '=');
      assert i < |pieces[0]| ==> SOH !in pieces[0][i + 1..];
      ReadSeparates(ReadPiece(m, pieces[0]), pieces[1..]);
    }
  }

  /** Exactly the separator-free values survive: with well-formed distinct tags, parsing gives back every
      field if and only if no value contains a separator. */
  lemma SurvivesIffClean(fields: seq<Field>)
    requires DistinctTags(fields) && forall f :: f in fields ==> TagOk(f)
    ensures Parse(Render(fields)) == Meaning(map[], fields) <==> forall f :: f in fields ==> SOH !in f.value
  {
    if forall f :: f in fields ==> SOH !in f.value {
      RoundTrip(fields);
    } else {
      var f :| f in fields && SOH in f.value;
      var i :| 0 <= i < |fields| && fields[i] == f;
      MeaningOfEach(map[], fields, i);
      SplitSeparates(Render(fields), SOH);
      ReadSeparates(map[], Split(Render(fields), SOH));
    }
  }

  // ----- messages -----

  function SumBytes(s: string): nat {
    if s == [] then 0 else SumBytes(s[..|s| - 1]) + s[|s| - 1] as int
  }

  /** Every byte counts once, with its own value. */
  lemma {:induction false} SumBytesAdds(a: string, b: string)
    ensures SumBytes("") == 0
    ensures |a| == 1 ==> SumBytes(a) == a[0] as int
    ensures SumBytes(a + b) == SumBytes(a) + SumBytes(b)
    decreases |b|
  {
    assert |a| == 1 ==> a[..0] == [];
    if b == [] {
      assert a + b == a;
    } else {
      assert (a + b)[..|a + b| - 1] == a + b[..|b| - 1];
      SumBytesAdds(a, b[..|b| - 1]);
    }
  }

  function Checksum(s: string): string {
    ThreeDigits(SumBytes(s) % 256)
  }

  /** Begin string and body length, in front of the payload. */
  function Front(payload: string): seq<Field> {
    [Field("8", "FIX.4.2"), Field("9", Itoa(|payload|))]
  }

  function Header(msgType: string, sender: string, target: string, seqNum: nat, now: string): seq<Field> {
    [Field("35", msgType), Field("49", sender), Field("56", target), Field("34", Itoa(seqNum)), Field("52", now)]
  }

  function Trailer(withLen: string): seq<Field> {
    [Field("10", Checksum(withLen))]
  }

  function Payload(header: seq<Field>, body: string): string {
    Render(header) + body + [SOH]
  }

  function WithLength(payload: string): string {
    Render(Front(payload)) + payload
  }

  function Message(header: seq<Field>, body: string): string {
    var withLen := WithLength(Payload(header, body));
    withLen + Render(Trailer(withLen))
  }

  /** A body as callers write it: its fields, with a separator between two but not behind the last. */
  function Body(fields: seq<Field>): string {
    if fields == [] then ""
    else if |fields| == 1 then Piece(fields[0])
    else Piece(fields[0]) + [SOH] + Body(fields[1..])
  }

  /** All the fields of a message, in order. */
  function FieldsOf(header: seq<Field>, fields: seq<Field>): seq<Field> {
    var payload := Payload(header, Body(fields));
    Front(payload) + header + fields + Trailer(WithLength(payload))
  }

  lemma {:induction false} BodyRenders(fields: seq<Field>)
    requires fields != []
    ensures Body(fields) + [SOH] == Render(fields)
  {
    if |fields| == 1 {
      assert Render(fields[1..]) == "";
    } else {
      BodyRenders(fields[1..]);
      assert Body(fields) + [SOH] == Piece(fields[0]) + [SOH] + (Body(fields[1..]) + [SOH]);
    }
  }

  lemma {:induction false} MeaningAppend(m: map<string, string>, a: seq<Field>, b: seq<Field>)
    ensures Meaning(m, a + b) == Meaning(Meaning(m, a), b)
    decreases |a|
  {
    if a == [] {
      assert a + b == b;
    } else {
      assert (a + b)[1..] == a[1..] + b;
      MeaningAppend(m[a[0].tag := a[0].value], a[1..], b);
    }
  }

  /** The closing separator behind the body: the end of its last field, or an empty piece that says
      nothing. */
  lemma ReadBody(m: map<string, string>, fields: seq<Field>, rest: string)
    requires AllClean(fields)
    ensures ReadPieces(m, Split(Body(fields) + [SOH] + rest, SOH)) == ReadPieces(Meaning(m, fields), Split(rest, SOH))
  {
    if fields == [] {
      assert Body(fields) + [SOH] + rest == "" + [SOH] + rest;
      SplitAfter("", SOH, rest);
      assert ([""] + Split(rest, SOH))[1..] == Split(rest, SOH);
      assert ReadPiece(m, "") == m;
    } else {
      BodyRenders(fields);
      ReadRendered(m, fields, rest);
    }
  }

  lemma {:induction false} ItoaClean(n: nat)
    ensures SOH !in Itoa(n)
  {
    if n < 10 {
    } else {
      ItoaClean(n / 10);
    }
  }

  lemma FrontClean(payload: string)
    ensures AllClean(Front(payload))
  {
    ItoaClean(|payload|);
    assert Clean(Field("8", "FIX.4.2"));
    assert Clean(Field("9", Itoa(|payload|)));
  }

  lemma TrailerClean(withLen: string)
    ensures AllClean(Trailer(withLen))
  {
    assert Clean(Field("10", Checksum(withLen)));
  }

  lemma MeaningOfFour(m: map<string, string>, a: seq<Field>, b: seq<Field>, c: seq<Field>, d: seq<Field>)
    ensures Meaning(m, a + b + c + d) == Meaning(Meaning(Meaning(Meaning(m, a), b), c), d)
  {
    MeaningAppend(m, a, b);
    MeaningAppend(m, a + b, c);
    MeaningAppend(m, a + b + c, d);
  }

  lemma Regroup(a: string, b: string, c: string, d: string)
    ensures a + (b + c + [SOH]) + d == a + (b + (c + [SOH] + d))
  {
  }

  lemma ReadFour(a: seq<Field>, b: seq<Field>, c: seq<Field>, d: seq<Field>)
    requires AllClean(a) && AllClean(b) && AllClean(c) && AllClean(d)
    ensures Parse(Render(a) + (Render(b) + (Body(c) + [SOH] + Render(d)))) ==
            Meaning(Meaning(Meaning(Meaning(map[], a), b), c), d)
  {
    var m0 := Meaning(map[], a);
    var m1 := Meaning(m0, b);
    var m2 := Meaning(m1, c);
    var rest := Body(c) + [SOH] + Render(d);
    ReadRendered(map[], a, Render(b) + rest);
    ReadRendered(m0, b, rest);
    ReadBody(m1, c, Render(d));
    assert Render(d) == Render(d) + "";
    ReadRendered(m2, d, "");
    ReadNothing(Meaning(m2, d));
  }

  /** Parsing a built message gives what all its fields say, header, body and trailer. */
  lemma MessageParses(header: seq<Field>, fields: seq<Field>)
    requires AllClean(header) && AllClean(fields)
    ensures Parse(Message(header, Body(fields))) == Meaning(map[], FieldsOf(header, fields))
  {
    var payload := Payload(header, Body(fields));
    var front, trailer := Front(payload), Trailer(WithLength(payload));
    FrontClean(payload);
    TrailerClean(WithLength(payload));
    Regroup(Render(front), Render(header), Body(fields), Render(trailer));
    ReadFour(front, header, fields, trailer);
    MeaningOfFour(map[], front, header, fields, trailer);
  }

  /** The round trip: with distinct tags every field of the message comes back with its own value. */
  lemma MessageRoundTrip(header: seq<Field>, fields: seq<Field>, i: nat)
    requires AllClean(header) && AllClean(fields) && DistinctTags(FieldsOf(header, fields))
    requires i < |FieldsOf(header, fields)|
    ensures var f := FieldsOf(header, fields)[i];
            var m := Parse(Message(header, Body(fields)));
            f.tag in m && m[f.tag] == f.value
  {
    MessageParses(header, fields);
    MeaningOfEach(map[], FieldsOf(header, fields), i);
  }

  const RESERVED := {"8", "9", "35", "49", "56", "34", "52", "10"}

  predicate Disjoint(a: seq<Field>, b: seq<Field>) {
    forall i, j :: 0 <= i < |a| && 0 <= j < |b| ==> a[i].tag != b[j].tag
  }

  lemma DistinctAppend(a: seq<Field>, b: seq<Field>)
    requires DistinctTags(a) && DistinctTags(b) && Disjoint(a, b)
    ensures DistinctTags(a + b)
  {
  }

  lemma DisjointAppend(a: seq<Field>, b: seq<Field>, c: seq<Field>)
    requires Disjoint(a, c) && Disjoint(b, c)
    ensures Disjoint(a + b, c)
  {
  }

  lemma HeaderClean(msgType: string, sender: string, target: string, seqNum: nat, now: string)
    requires SOH !in msgType && SOH !in sender && SOH !in target && SOH !in now
    ensures var h := Header(msgType, sender, target, seqNum, now);
            AllClean(h) && DistinctTags(h)
  {
    var h := Header(msgType, sender, target, seqNum, now);
    ItoaClean(seqNum);
    forall f | f in h ensures Clean(f) { assert f == h[0] || f == h[1] || f == h[2] || f == h[3] || f == h[4]; }
  }

  lemma BuiltDistinct(msgType: string, sender: string, target: string, seqNum: nat, now: string, fields: seq<Field>)
    requires SOH !in msgType && SOH !in sender && SOH !in target && SOH !in now
    requires DistinctTags(fields) && forall j :: 0 <= j < |fields| ==> fields[j].tag !in RESERVED
    ensures var h := Header(msgType, sender, target, seqNum, now);
            AllClean(h) && DistinctTags(FieldsOf(h, fields))
  {
    var h := Header(msgType, sender, target, seqNum, now);
    var payload := Payload(h, Body(fields));
    HeaderClean(msgType, sender, target, seqNum, now);
    TagsDistinct(Front(payload), h, fields, Trailer(WithLength(payload)));
  }

  /** The round trip in the caller's terms: separator-free values, and body fields whose tags are distinct
      and not the message's own. Every field comes back, header, body and trailer. */
  lemma BuiltRoundTrip(msgType: string, sender: string, target: string, seqNum: nat, now: string,
                       fields: seq<Field>, i: nat)
    requires SOH !in msgType && SOH !in sender && SOH !in target && SOH !in now
    requires AllClean(fields) && DistinctTags(fields) && forall j :: 0 <= j < |fields| ==> fields[j].tag !in RESERVED
    requires var all := FieldsOf(Header(msgType, sender, target, seqNum, now), fields);
             i < |all|
    ensures var h := Header(msgType, sender, target, seqNum, now);
            var f, m := FieldsOf(h, fields)[i], Parse(Message(h, Body(fields)));
            f.tag in m && m[f.tag] == f.value
  {
    var h := Header(msgType, sender, target, seqNum, now);
    BuiltDistinct(msgType, sender, target, seqNum, now, fields);
    MessageRoundTrip(h, fields, i);
  }

  /** m says what these fields say. */
  predicate Says(m: map<string, string>, fields: seq<Field>) {
    forall f :: f in fields ==> f.tag in m && m[f.tag] == f.value
  }

  lemma SaysParts(m: map<string, string>, a: seq<Field>, b: seq<Field>, c: seq<Field>, d: seq<Field>)
    requires Says(m, a + b + c + d)
    ensures Says(m, a) && Says(m, b)
  {
    forall f | f in a || f in b ensures f in a + b + c + d { }
  }

  lemma EveryFieldComesBack(h: seq<Field>, fields: seq<Field>)
    requires AllClean(h) && AllClean(fields) && DistinctTags(FieldsOf(h, fields))
    ensures Says(Parse(Message(h, Body(fields))), FieldsOf(h, fields))
  {
    forall f | f in FieldsOf(h, fields)
      ensures var m := Parse(Message(h, Body(fields))); f.tag in m && m[f.tag] == f.value
    {
      var k :| 0 <= k < |FieldsOf(h, fields)| && FieldsOf(h, fields)[k] == f;
      MessageRoundTrip(h, fields, k);
    }
  }

  /** The header and the begin string read as these values, the number without leading zeros. */
  predicate ReadsAs(m: map<string, string>, msgType: string, sender: string, target: string, seqNum: nat, now: string) {
    && {"8", "9", "35", "49", "56", "34", "52"} <= m.Keys
    && m["8"] == "FIX.4.2" && m["35"] == msgType && m["49"] == sender && m["56"] == target && m["52"] == now
    && Decimal(m["34"]) && Atoi(m["34"]) == seqNum && (|m["34"]| > 1 ==> m["34"][0] != '0')
  }

  lemma FieldsReadAs(m: map<string, string>, msgType: string, sender: string, target: string, seqNum: nat, now: string,
                     payload: string)
    requires Says(m, Header(msgType, sender, target, seqNum, now)) && Says(m, Front(payload))
    ensures ReadsAs(m, msgType, sender, target, seqNum, now)
  {
    var h, f := Header(msgType, sender, target, seqNum, now), Front(payload);
    assert h[0] in h && h[1] in h && h[2] in h && h[3] in h && h[4] in h && f[0] in f && f[1] in f;
    ItoaAtoi(seqNum);
    NoLeadingZero(seqNum);
  }

  /** What a receiver reads in the header: the values the message was built from. */
  lemma HeaderComesBack(msgType: string, sender: string, target: string, seqNum: nat, now: string, fields: seq<Field>)
    requires SOH !in msgType && SOH !in sender && SOH !in target && SOH !in now
    requires AllClean(fields) && DistinctTags(fields) && forall j :: 0 <= j < |fields| ==> fields[j].tag !in RESERVED
    ensures ReadsAs(Parse(Message(Header(msgType, sender, target, seqNum, now), Body(fields))),
                    msgType, sender, target, seqNum, now)
  {
    var h := Header(msgType, sender, target, seqNum, now);
    BuiltDistinct(msgType, sender, target, seqNum, now, fields);
    var m, payload := Parse(Message(h, Body(fields))), Payload(h, Body(fields));
    EveryFieldComesBack(h, fields);
    SaysParts(m, Front(payload), h, fields, Trailer(WithLength(payload)));
    FieldsReadAs(m, msgType, sender, target, seqNum, now, payload);
  }

  lemma {:induction false} NoLeadingZero(n: nat)
    ensures |Itoa(n)| > 1 ==> Itoa(n)[0] != '0'
    ensures n > 0 ==> Itoa(n)[0] != '0'
  {
    if n < 10 {
    } else {
      NoLeadingZero(n / 10);
    }
  }

  predicate Own(own: seq<Field>) {
    forall j :: 0 <= j < |own| ==> own[j].tag in RESERVED
  }

  lemma TagsDistinct(front: seq<Field>, h: seq<Field>, fields: seq<Field>, trailer: seq<Field>)
    requires DistinctTags(front) && DistinctTags(h) && DistinctTags(fields) && DistinctTags(trailer)
    requires Own(front) && Own(h) && Own(trailer)
    requires Disjoint(front, h) && Disjoint(front, trailer) && Disjoint(h, trailer)
    requires forall j :: 0 <= j < |fields| ==> fields[j].tag !in RESERVED
    ensures DistinctTags(front + h + fields + trailer)
  {
    DistinctAppend(front, h);
    DisjointAppend(front, h, fields);
    DistinctAppend(front + h, fields);
    DisjointAppend(front, h, trailer);
    DisjointAppend(front + h, fields, trailer);
    DistinctAppend(front + h + fields, trailer);
  }

  // ----- what a receiver checks -----

  /** Where the bytes counted by the body length begin: behind the second separator. */
  function BodyStart(msg: string): nat {
    var i := IndexOf(msg, SOH);
    if i == |msg| then |msg|
    else
      var j := IndexOf(msg[i + 1..], SOH);
      if i + 1 + j == |msg| then |msg| else i + 1 + j + 1
  }

  const TRAILER_LENGTH := 7  // "10=", three digits and the separator

  /** Appendix B (CheckSum Calculation) of the FIX 4.2 specification: the three digits at the end are the
      sum, modulo 256, of every byte in front of the checksum field. */
  predicate ChecksumOk(msg: string) {
    && |msg| >= TRAILER_LENGTH
    && var at := |msg| - TRAILER_LENGTH;
    && msg[at..at + 3] == "10=" && msg[|msg| - 1] == SOH
    && Decimal(msg[at + 3..at + 6])
    && Atoi(msg[at + 3..at + 6]) == SumBytes(msg[..at]) % 256
  }

  /** The second field holds the number of bytes from behind it to the checksum field. */
  predicate BodyLengthOk(msg: string) {
    && |msg| >= TRAILER_LENGTH
    && var first := IndexOf(msg, SOH) + 1;
    && var start := BodyStart(msg);
    && first + 3 <= start <= |msg| - TRAILER_LENGTH
    && msg[first..first + 2] == "9=" && msg[start - 1] == SOH
    && Decimal(msg[first + 2..start - 1])
    && Atoi(msg[first + 2..start - 1]) == |msg| - TRAILER_LENGTH - start
  }

  lemma TrailerIs(withLen: string)
    ensures Render(Trailer(withLen)) == "10=" + Checksum(withLen) + [SOH]
  {
    var f := Field("10", Checksum(withLen));
    assert Render([f]) == Piece(f) + [SOH] + Render([f][1..]);
    assert [f][1..] == [];
  }

  /** Every built message passes the checksum test, whatever its header and body. */
  lemma MessageChecksumOk(header: seq<Field>, body: string)
    ensures ChecksumOk(Message(header, body))
  {
    var withLen := WithLength(Payload(header, body));
    var msg := Message(header, body);
    TrailerIs(withLen);
    ThreeDigitsAtoi(SumBytes(withLen) % 256);
    assert msg[..|withLen|] == withLen;
    assert msg[|withLen|..|withLen| + 3] == "10=";
    assert msg[|withLen| + 3..|withLen| + 6] == Checksum(withLen);
  }

  const BEGIN := "8=FIX.4.2"

  lemma FrontIs(payload: string)
    ensures Render(Front(payload)) == BEGIN + [SOH] + ("9=" + Itoa(|payload|) + [SOH])
  {
    var f, g := Field("8", "FIX.4.2"), Field("9", Itoa(|payload|));
    RenderTwo(f, g);
    BeginIs();
    assert "9" + ['='] == "9=";
  }

  lemma BeginIs()
    ensures Piece(Field("8", "FIX.4.2")) == BEGIN && SOH !in BEGIN
  {
  }

  lemma RenderTwo(f: Field, g: Field)
    ensures Render([f, g]) == Piece(f) + [SOH] + (Piece(g) + [SOH])
  {
    assert [f, g][1..] == [g] && [g][1..] == [];
    assert Render([g]) == Piece(g) + [SOH];
  }

  lemma RenderNext(h: seq<Field>, i: nat)
    requires i < |h|
    ensures Render(h[i..]) == h[i].tag + ['='] + h[i].value + [SOH] + Render(h[i + 1..])
  {
    assert h[i..][1..] == h[i + 1..];
  }

  lemma SecondField(begin: string, second: string, rest: string)
    requires SOH !in begin && SOH !in second
    ensures var msg := begin + [SOH] + (second + [SOH] + rest);
            && IndexOf(msg, SOH) == |begin|
            && BodyStart(msg) == |begin| + 1 + |second| + 1
            && msg[|begin| + 1..|begin| + 1 + |second|] == second && msg[BodyStart(msg) - 1] == SOH
  {
    var msg := begin + [SOH] + (second + [SOH] + rest);
    IndexAfter(begin, SOH, second + [SOH] + rest);
    assert msg[|begin| + 1..] == second + [SOH] + rest;
    IndexAfter(second, SOH, rest);
  }

  lemma LengthTested(msg: string, first: nat, digits: string, counted: nat)
    requires first == IndexOf(msg, SOH) + 1 && BodyStart(msg) == first + 2 + |digits| + 1
    requires |msg| == BodyStart(msg) + counted + TRAILER_LENGTH
    requires msg[first..first + 2 + |digits|] == "9=" + digits && msg[BodyStart(msg) - 1] == SOH
    requires Decimal(digits) && |digits| >= 1 && Atoi(digits) == counted
    ensures BodyLengthOk(msg)
  {
    var field := msg[first..first + 2 + |digits|];
    assert field[..2] == msg[first..first + 2] && field[2..] == msg[first + 2..BodyStart(msg) - 1];
    assert field[..2] == "9=" && field[2..] == digits;
  }

  lemma LengthFound(begin: string, second: string, digits: string, payload: string, trailer: string)
    requires SOH !in begin && SOH !in second && |trailer| == TRAILER_LENGTH
    requires second == "9=" + digits && Decimal(digits) && |digits| >= 1 && Atoi(digits) == |payload|
    ensures BodyLengthOk(begin + [SOH] + (second + [SOH] + (payload + trailer)))
  {
    var msg := begin + [SOH] + (second + [SOH] + (payload + trailer));
    assert |second| == 2 + |digits|;
    SecondField(begin, second, payload + trailer);
    LengthTested(msg, |begin| + 1, digits, |payload|);
  }

  lemma RegroupFront(a: string, b: string, c: string, d: string)
    ensures a + [SOH] + (b + [SOH]) + c + d == a + [SOH] + (b + [SOH] + (c + d))
  {
  }

  /** Every built message passes the body-length test, whatever its header and body. */
  lemma MessageBodyLengthOk(header: seq<Field>, body: string)
    ensures BodyLengthOk(Message(header, body))
  {
    var payload := Payload(header, body);
    var digits, trailer := Itoa(|payload|), Render(Trailer(WithLength(payload)));
    FrontIs(payload);
    TrailerIs(WithLength(payload));
    ItoaAtoi(|payload|);
    ItoaClean(|payload|);
    BeginIs();
    LengthFound(BEGIN, "9=" + digits, digits, payload, trailer);
    RegroupFront(BEGIN, "9=" + digits, payload, trailer);
  }

  class FIXBot {
    const senderCompID: string
    const targetCompID: string
    var seqNum: nat

    constructor (sender: string, target: string)
      ensures seqNum == 0 && senderCompID == sender && targetCompID == target
    {
      senderCompID, targetCompID, seqNum := sender, target, 0;
    }

    /** The clock is a parameter. */
    method BuildFIXMessage(msgType: string, body: string, now: string) returns (msg: string)
      modifies this
      ensures seqNum == old(seqNum) + 1
      ensures msg == Message(Header(msgType, senderCompID, targetCompID, seqNum, now), body)
    {
      seqNum := seqNum + 1;
      var header :=
        "35=" + msgType + [SOH] +
        ("49=" + senderCompID + [SOH] +
         ("56=" + targetCompID + [SOH] +
          ("34=" + Itoa(seqNum) + [SOH] +
           ("52=" + now + [SOH]))));
      HeaderRenders(msgType, senderCompID, targetCompID, seqNum, now);
      var payload := header + body + [SOH];
      FrontIs(payload);
      var withLen := BEGIN + [SOH] + ("9=" + Itoa(|payload|) + [SOH]) + payload;
      TrailerIs(withLen);
      var sum := ComputeChecksum(withLen);
      msg := withLen + ("10=" + sum + [SOH]);
    }
  }

  lemma HeaderRenders(msgType: string, sender: string, target: string, seqNum: nat, now: string)
    ensures Render(Header(msgType, sender, target, seqNum, now)) ==
            "35=" + msgType + [SOH] +
            ("49=" + sender + [SOH] + ("56=" + target + [SOH] + ("34=" + Itoa(seqNum) + [SOH] + ("52=" + now + [SOH]))))
  {
    var h := Header(msgType, sender, target, seqNum, now);
    RenderNext(h, 4);
    RenderNext(h, 3);
    RenderNext(h, 2);
    RenderNext(h, 1);
    RenderNext(h, 0);
    assert "35" + ['='] == "35=" && "49" + ['='] == "49=" && "56" + ['='] == "56=" && "34" + ['='] == "34=";
    assert "52" + ['='] == "52=";
  }

  method ComputeChecksum(s: string) returns (r: string)
    ensures r == Checksum(s)
  {
    var sum := 0;
    for i := 0 to |s|
      invariant sum == SumBytes(s[..i])
    {
      assert s[..i + 1][..i] == s[..i];
      sum := sum + s[i] as int;
    }
    assert s[..|s|] == s;
    return ThreeDigits(sum % 256);
  }

  method ParseFIXMessage(raw: string) returns (out: map<string, string>)
    ensures out == Parse(raw)
  {
    out := map[];
    var pieces := Split(raw, SOH);
    for i := 0 to |pieces|
      invariant ReadPieces(out, pieces[i..]) == Parse(raw)
    {
      assert pieces[i..][1..] == pieces[i + 1..];
      var at := IndexOf(pieces[i], '=');
      if at < |pieces[i]| {
        out := out[pieces[i][..at] := pieces[i][at + 1..]];
      }
    }
  }
}
