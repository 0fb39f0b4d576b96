/**
 The torn-record scanner: the byte where the last complete CSV record ends, for
 records quoted by the rules of section 2 of RFC 4180.
 */
module RawCsv {
  newtype byte = x: int | 0 <= x < 256

  const QUOTE: byte := 0x22
  const COMMA: byte := 0x2C
  const NEWLINE: byte := 0x0A
  const RETURN: byte := 0x0D

  // ---- The scanner ----

  /** Is the number of quotes odd? */
  predicate OddQuotes(s: seq<byte>) {
    s != [] && OddQuotes(s[..|s| - 1]) != (s[|s| - 1] == QUOTE)
  }

  /** A record may end after byte `k`: a newline with an even number of quotes before it. */
  predicate Boundary(s: seq<byte>, k: int) {
    0 < k <= |s| && s[k - 1] == NEWLINE && !OddQuotes(s[..k - 1])
  }

  ghost predicate LastBoundary(s: seq<byte>, end: int) {
    (end == 0 || Boundary(s, end)) && forall k :: end < k ==> !Boundary(s, k)
  }

  lemma OddSnoc(s: seq<byte>, n: nat)
    requires n < |s|
    ensures OddQuotes(s[..n + 1]) == (OddQuotes(s[..n]) != (s[n] == QUOTE))
  {
    assert s[..n + 1][..n] == s[..n];
  }

  method CompleteLength(bytes: seq<byte>) returns (end: nat)
    ensures LastBoundary(bytes, end)
  {
    var quoted := false;
    end := 0;
    var i := 0;
    while i < |bytes|
      invariant 0 <= end <= i <= |bytes|
      invariant quoted == OddQuotes(bytes[..i])
      invariant end == 0 || Boundary(bytes, end)
      invariant forall k :: end < k <= i ==> !Boundary(bytes, k)
    {
      OddSnoc(bytes, i);
      if bytes[i] == QUOTE {
        if quoted && i + 1 < |bytes| && bytes[i + 1] == QUOTE {
          OddSnoc(bytes, i + 1);
          i := i + 2;
          continue;
        }
        quoted := !quoted;
      }
      if bytes[i] == NEWLINE && !quoted {
        end := i + 1;
      }
      i := i + 1;
    }
  }

  lemma LastBoundaryIsUnique(s: seq<byte>, m: nat, n: nat)
    requires LastBoundary(s, m) && LastBoundary(s, n)
    ensures m == n
  {
  }

  // ---- Records ----

  /** A field as written: bare text without special bytes, or any content between quotes. */
  datatype Field = Plain(text: seq<byte>) | Quoted(content: seq<byte>)

  datatype Record = Record(fields: seq<Field>, crlf: bool)

  predicate ValidField(f: Field) {
    f.Plain? ==> forall i :: 0 <= i < |f.text| ==> f.text[i] !in [QUOTE, COMMA, NEWLINE, RETURN]
  }

  predicate ValidRecord(r: Record) {
    |r.fields| > 0 && forall i :: 0 <= i < |r.fields| ==> ValidField(r.fields[i])
  }

  /** Quotes inside quotes are written twice. */
  function Doubled(content: seq<byte>): seq<byte> {
    if content == [] then []
    else
      var last := content[|content| - 1];
      Doubled(content[..|content| - 1]) + if last == QUOTE then [QUOTE, QUOTE] else [last]
  }

  function EncodeField(f: Field): seq<byte> {
    match f
    case Plain(text) => text
    case Quoted(content) => [QUOTE] + Doubled(content) + [QUOTE]
  }

  function EncodeFields(fields: seq<Field>): seq<byte> {
    if fields == [] then []
    else if |fields| == 1 then EncodeField(fields[0])
    else EncodeField(fields[0]) + [COMMA] + EncodeFields(fields[1..])
  }

  function Body(r: Record): seq<byte> {
    EncodeFields(r.fields) + if r.crlf then [RETURN] else []
  }

  function Encode(r: Record): seq<byte> {
    Body(r) + [NEWLINE]
  }

  function EncodeAll(records: seq<Record>): seq<byte> {
    if records == [] then [] else EncodeAll(records[..|records| - 1]) + Encode(records[|records| - 1])
  }

  // ---- Sealed text: newlines only between quotes ----

  ghost predicate Sealed(s: seq<byte>) {
    !OddQuotes(s) && forall p :: 0 <= p < |s| && s[p] == NEWLINE ==> OddQuotes(s[..p])
  }

  lemma {:induction false} OddAppend(s: seq<byte>, t: seq<byte>)
    ensures OddQuotes(s + t) == (OddQuotes(s) != OddQuotes(t))
    decreases |t|
  {
    if t == [] {
      assert s + t == s;
    } else {
      var n := |t| - 1;
      assert (s + t)[..|s + t| - 1] == s + t[..n];
      OddAppend(s, t[..n]);
    }
  }

  /** The quotes before a place in joined text. */
  lemma OddBefore(s: seq<byte>, t: seq<byte>, p: nat)
    requires p <= |s + t|
    ensures OddQuotes((s + t)[..p]) ==
            if p <= |s| then OddQuotes(s[..p]) else OddQuotes(s) != OddQuotes(t[..p - |s|])
  {
    if p <= |s| {
      assert (s + t)[..p] == s[..p];
    } else {
      assert (s + t)[..p] == s + t[..p - |s|];
      OddAppend(s, t[..p - |s|]);
    }
  }

  lemma SealedAppend(s: seq<byte>, t: seq<byte>)
    requires Sealed(s) && Sealed(t)
    ensures Sealed(s + t)
  {
    OddAppend(s, t);
    forall p | 0 <= p < |s + t| && (s + t)[p] == NEWLINE ensures OddQuotes((s + t)[..p]) {
      OddBefore(s, t, p);
      assert s[..|s|] == s;
    }
  }

  lemma {:induction false} PlainIsSealed(s: seq<byte>)
    requires forall i :: 0 <= i < |s| ==> s[i] != QUOTE && s[i] != NEWLINE
    ensures Sealed(s)
    decreases |s|
  {
    if s != [] {
      PlainIsSealed(s[..|s| - 1]);
    }
  }

  lemma PairIsEven(b: byte)
    ensures OddQuotes([b]) == (b == QUOTE) && !OddQuotes([QUOTE, QUOTE])
  {
    assert [b][..0] == [] && [QUOTE][..0] == [] && [QUOTE, QUOTE][..1] == [QUOTE];
  }

  /** Doubling pairs the quotes, so every other byte of the content has an even number before it. */
  lemma {:induction false} DoubledIsPaired(content: seq<byte>)
    ensures !OddQuotes(Doubled(content))
    ensures forall p :: 0 <= p < |Doubled(content)| && Doubled(content)[p] != QUOTE ==>
              !OddQuotes(Doubled(content)[..p])
    decreases |content|
  {
    if content != [] {
      var n := |content| - 1;
      var d := Doubled(content[..n]);
      var tail := if content[n] == QUOTE then [QUOTE, QUOTE] else [content[n]];
      DoubledIsPaired(content[..n]);
      OddAppend(d, tail);
      PairIsEven(content[n]);
      forall p | 0 <= p < |d + tail| && (d + tail)[p] != QUOTE ensures !OddQuotes((d + tail)[..p]) {
        OddBefore(d, tail, p);
        assert d[..|d|] == d;
      }
    }
  }

  lemma QuotedIsSealed(content: seq<byte>)
    ensures Sealed([QUOTE] + Doubled(content) + [QUOTE])
  {
    var d := Doubled(content);
    DoubledIsPaired(content);
    var s := [QUOTE] + d;
    OddAppend([QUOTE], d);
    OddAppend(s, [QUOTE]);
    assert OddQuotes([QUOTE]);
    forall p | 0 <= p < |s + [QUOTE]| && (s + [QUOTE])[p] == NEWLINE ensures OddQuotes((s + [QUOTE])[..p]) {
      OddBefore(s, [QUOTE], p);
      OddBefore([QUOTE], d, p);
      assert d[p - 1] == NEWLINE;
      assert [QUOTE][..1] == [QUOTE] && d[..0] == [];
    }
  }

  lemma {:induction false} FieldsAreSealed(fields: seq<Field>)
    requires forall i :: 0 <= i < |fields| ==> ValidField(fields[i])
    ensures Sealed(EncodeFields(fields))
    decreases |fields|
  {
    if fields != [] {
      FieldIsSealed(fields[0]);
      if |fields| > 1 {
        PlainIsSealed([COMMA]);
        SealedAppend(EncodeField(fields[0]), [COMMA]);
        FieldsAreSealed(fields[1..]);
        SealedAppend(EncodeField(fields[0]) + [COMMA], EncodeFields(fields[1..]));
      }
    }
  }

  lemma FieldIsSealed(f: Field)
    requires ValidField(f)
    ensures Sealed(EncodeField(f))
  {
    match f {
      case Plain(text) =>
        forall i | 0 <= i < |text| ensures text[i] != QUOTE && text[i] != NEWLINE {
          assert text[i] !in [QUOTE, COMMA, NEWLINE, RETURN];
        }
        PlainIsSealed(text);
      case Quoted(content) =>
        QuotedIsSealed(content);
    }
  }

  lemma BodyIsSealed(r: Record)
    requires ValidRecord(r)
    ensures Sealed(Body(r))
  {
    FieldsAreSealed(r.fields);
    var ending: seq<byte> := if r.crlf then [RETURN] else [];
    PlainIsSealed(ending);
    SealedAppend(EncodeFields(r.fields), ending);
  }

  // ---- The theorem ----

  /** A complete record after complete records ends at a boundary and leaves no quote open. */
  lemma RecordEndsAtBoundary(before: seq<byte>, body: seq<byte>)
    requires !OddQuotes(before) && Sealed(body)
    ensures var all := before + (body + [NEWLINE]); !OddQuotes(all) && Boundary(all, |all|)
  {
    var all := before + (body + [NEWLINE]);
    OddAppend(before, body);
    OddSnoc(all, |all| - 1);
    assert all[..|all| - 1] == before + body;
    assert all[..|all|] == all;
  }

  lemma {:induction false} RecordsEndAtBoundary(records: seq<Record>)
    requires forall i :: 0 <= i < |records| ==> ValidRecord(records[i])
    ensures !OddQuotes(EncodeAll(records))
    ensures if records == [] then EncodeAll(records) == [] else Boundary(EncodeAll(records), |EncodeAll(records)|)
    decreases |records|
  {
    if records != [] {
      var n := |records| - 1;
      RecordsEndAtBoundary(records[..n]);
      BodyIsSealed(records[n]);
      RecordEndsAtBoundary(EncodeAll(records[..n]), Body(records[n]));
    }
  }

  /** Sealed text cut anywhere adds no boundary. */
  lemma CutAddsNoBoundary(all: seq<byte>, body: seq<byte>, cut: nat, k: int)
    requires !OddQuotes(all) && Sealed(body) && cut <= |body| && k > |all|
    ensures !Boundary(all + body[..cut], k)
  {
    var rest := body[..cut];
    if k <= |all + rest| && (all + rest)[k - 1] == NEWLINE {
      var p := k - 1 - |all|;
      assert body[p] == NEWLINE;
      OddBefore(all, rest, k - 1);
      assert rest[..p] == body[..p];
      assert all[..|all|] == all;
    }
  }

  lemma CutKeepsBoundary(all: seq<byte>, rest: seq<byte>)
    requires Boundary(all, |all|)
    ensures Boundary(all + rest, |all|)
  {
    assert (all + rest)[..|all| - 1] == all[..|all| - 1];
  }

  /**
   Whatever the records contain and wherever the last one was cut short, inside quotes, between
   doubled quotes, at an embedded newline or before its final newline, the scanner's answer is
   exactly the length of the complete records.
   */
  lemma TornRecordIsDropped(records: seq<Record>, next: Record, cut: nat, end: nat)
    requires forall i :: 0 <= i < |records| ==> ValidRecord(records[i])
    requires ValidRecord(next) && cut < |Encode(next)|
    ensures LastBoundary(EncodeAll(records) + Encode(next)[..cut], end) <==> end == |EncodeAll(records)|
  {
    var all, body := EncodeAll(records), Body(next);
    RecordsEndAtBoundary(records);
    BodyIsSealed(next);
    assert Encode(next)[..cut] == body[..cut];
    forall k | k > |all| ensures !Boundary(all + body[..cut], k) {
      CutAddsNoBoundary(all, body, cut, k);
    }
    if records != [] {
      CutKeepsBoundary(all, body[..cut]);
    }
    if LastBoundary(all + body[..cut], end) {
      LastBoundaryIsUnique(all + body[..cut], end, |all|);
    }
  }
}
