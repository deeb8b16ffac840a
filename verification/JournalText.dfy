/** The text of a run journal: one encoded event per line, and at most one unfinished line at the end. */
module JournalText {
  import opened Prelude
  import opened Contents

  datatype Ref = Ref(path: string, identity: Identity)

  datatype Receipt = Receipt(accepted: bool, number: nat, key: Option<string>, identity: Identity)

  datatype Data = Submission(receipt: Receipt, candidate: Ref) | Recovered(tail: Ref) | Other(text: string)

  datatype Entry = Entry(sequence: nat, kind: string, data: Data)

  /** A line read back: the fields that are present with the right type. */
  datatype Parsed = Parsed(sequence: Option<int>, kind: Option<string>, data: Option<Data>)

  /** How events are written to lines and read from them. */
  datatype Codec = Codec(enc: Entry -> Bytes, dec: Bytes -> Option<Parsed>)

  /** An encoded event is a single line, and reading it gives the event back. */
  ghost predicate Faithful(c: Codec) {
    forall e :: Written(c, e)
  }

  ghost predicate Written(c: Codec, e: Entry) {
    '\n' !in c.enc(e) && c.dec(c.enc(e)) == Some(Parsed(Some(e.sequence), Some(e.kind), Some(e.data)))
  }

  datatype ReadError = BadEvent | BadSequence | UnfinishedTail

  datatype Journal = Journal(events: seq<Entry>, incomplete: bool)

  // ---- Lines ---------------------------------------------------------------------------------

  function Break(raw: Bytes): (i: nat)
    ensures i <= |raw|
    ensures forall k :: 0 <= k < i ==> raw[k] != '\n'
    ensures i < |raw| ==> raw[i] == '\n'
  {
    if raw == "" || raw[0] == '\n' then 0 else 1 + Break(raw[1..])
  }

  /** The finished lines. */
  function Lines(raw: Bytes): (ls: seq<Bytes>)
    decreases |raw|
  {
    var i := Break(raw);
    if i == |raw| then [] else [raw[..i]] + Lines(raw[i + 1..])
  }

  /** What follows the last line break. */
  function Tail(raw: Bytes): (t: Bytes)
    ensures |t| <= |raw|
    decreases |raw|
  {
    var i := Break(raw);
    if i == |raw| then raw else Tail(raw[i + 1..])
  }

  /** The event on a line, when it is the one that has to come next. */
  function Next(c: Codec, line: Bytes, n: nat): (r: Result<Entry, ReadError>) {
    var p := c.dec(line);
    if p.None? then Err(BadEvent)
    else if p.value.sequence != Some(n + 1) || p.value.kind.None? || p.value.kind.value == "" || p.value.data.None? then
      Err(BadSequence)
    else Ok(Entry(n + 1, p.value.kind.value, p.value.data.value))
  }

  /** The events on the first `k` lines. */
  function Events(c: Codec, lines: seq<Bytes>, k: nat): (r: Result<seq<Entry>, ReadError>)
    requires k <= |lines|
  {
    if k == 0 then Ok([])
    else
      var front := Events(c, lines, k - 1);
      if front.Err? then front
      else
        var e := Next(c, lines[k - 1], |front.value|);
        if e.Err? then Err(e.error) else Ok(front.value + [e.value])
  }

  function Read(c: Codec, raw: Bytes, partial: bool): (r: Result<Journal, ReadError>) {
    var events := Events(c, Lines(raw), |Lines(raw)|);
    if events.Err? then Err(events.error)
    else if Tail(raw) != "" && !partial then Err(UnfinishedTail)
    else Ok(Journal(events.value, Tail(raw) != ""))
  }

  /** The line is an event with this number, a kind and data. */
  predicate IsEvent(c: Codec, line: Bytes, number: nat, e: Entry) {
    c.dec(line) == Some(Parsed(Some(number), Some(e.kind), Some(e.data))) && e.kind != "" && e.sequence == number
  }

  /** These are the events on the lines, numbered from one. */
  predicate AreEvents(c: Codec, lines: seq<Bytes>, es: seq<Entry>) {
    |es| == |lines| && forall k :: 0 <= k < |es| ==> IsEvent(c, lines[k], k + 1, es[k])
  }

  lemma {:induction false} EventsExactly(c: Codec, lines: seq<Bytes>, k: nat)
    requires k <= |lines|
    ensures Events(c, lines, k).Ok? ==> AreEvents(c, lines[..k], Events(c, lines, k).value)
    ensures forall es :: AreEvents(c, lines[..k], es) ==> Events(c, lines, k) == Ok(es)
  {
    if k > 0 {
      EventsExactly(c, lines, k - 1);
      assert lines[..k][..k - 1] == lines[..k - 1];
      forall es | AreEvents(c, lines[..k], es) ensures Events(c, lines, k) == Ok(es) {
        assert AreEvents(c, lines[..k - 1], es[..k - 1]);
        assert IsEvent(c, lines[..k][k - 1], k, es[k - 1]);
        assert es == es[..k - 1] + [es[k - 1]];
      }
    }
  }

  /**
   * Reading gives the events on the finished lines, or fails: it succeeds exactly if the lines are events numbered from
   * one and nothing unfinished follows them unless that is allowed.
   */
  method ReadJournal(c: Codec, raw: Bytes, partial: bool) returns (r: Result<Journal, ReadError>)
    ensures r == Read(c, raw, partial)
    ensures r.Ok? ==> AreEvents(c, Lines(raw), r.value.events) && (r.value.incomplete <==> Tail(raw) != "")
    ensures (exists es :: AreEvents(c, Lines(raw), es)) && (partial || Tail(raw) == "") <==> r.Ok?
  {
    hide Lines, Tail, Next, AreEvents;
    EventsExactly(c, Lines(raw), |Lines(raw)|);
    assert Lines(raw)[..|Lines(raw)|] == Lines(raw);
    var lines := Lines(raw);
    var events: seq<Entry> := [];
    var failure: Option<ReadError> := None;
    var k := 0;
    while k < |lines| && failure.None?
      invariant k <= |lines|
      invariant Events(c, lines, k) == if failure.None? then Ok(events) else Err(failure.value)
      decreases |lines| - k, failure.None?
    {
      var e := Next(c, lines[k], |events|);
      k := k + 1;
      if e.Err? {
        failure := Some(e.error);
      } else {
        events := events + [e.value];
      }
    }
    if failure.Some? {
      FailureStays(c, lines, k);
      r := Err(failure.value);
    } else if Tail(raw) != "" && !partial {
      r := Err(UnfinishedTail);
    } else {
      r := Ok(Journal(events, Tail(raw) != ""));
    }
  }

  lemma {:induction false} FailureStays(c: Codec, lines: seq<Bytes>, k: nat)
    requires k <= |lines| && Events(c, lines, k).Err?
    ensures Events(c, lines, |lines|) == Events(c, lines, k)
    decreases |lines| - k
  {
    hide Next;
    if k < |lines| {
      FailureStays(c, lines, k + 1);
    }
  }

  // ---- Written events ------------------------------------------------------------------------

  function Line(c: Codec, e: Entry): (l: Bytes) { c.enc(e) + "\n" }

  /** The text of a list of events. */
  function Text(c: Codec, es: seq<Entry>): (t: Bytes) {
    if es == [] then "" else Line(c, es[0]) + Text(c, es[1..])
  }

  /** Sequence numbers are 1, 2, 3 and so on, and every event has a kind. */
  predicate Numbered(es: seq<Entry>) {
    forall k :: 0 <= k < |es| ==> es[k].sequence == k + 1 && es[k].kind != ""
  }

  predicate OneLine(t: Bytes) { '\n' !in t }

  /** The bytes are exactly these events and an unfinished rest of a line. */
  ghost predicate Framed(c: Codec, raw: Bytes, es: seq<Entry>, tail: Bytes) {
    raw == Text(c, es) + tail && OneLine(tail) && Numbered(es)
  }

  lemma BreakAt(a: Bytes, b: Bytes)
    requires OneLine(a)
    ensures Break(a + "\n" + b) == |a| && (a + "\n" + b)[..|a|] == a && (a + "\n" + b)[|a| + 1..] == b
  {
    var s := a + "\n" + b;
    assert s[|a|] == '\n';
    forall k | 0 <= k < |a| ensures s[k] != '\n' {
      assert s[k] == a[k];
      assert a[k] in a;
    }
  }

  lemma NoBreak(t: Bytes)
    requires OneLine(t)
    ensures Break(t) == |t|
  {
    forall k | 0 <= k < |t| ensures t[k] != '\n' {
      assert t[k] in t;
    }
  }

  lemma LinesStep(a: Bytes, b: Bytes)
    requires OneLine(a)
    ensures Lines(a + "\n" + b) == [a] + Lines(b) && Tail(a + "\n" + b) == Tail(b)
  {
    BreakAt(a, b);
  }

  lemma LinesEnd(t: Bytes)
    requires OneLine(t)
    ensures Lines(t) == [] && Tail(t) == t
  {
    NoBreak(t);
  }

  lemma {:induction false} LinesOfText(c: Codec, es: seq<Entry>, tail: Bytes)
    requires Faithful(c) && OneLine(tail)
    ensures |Lines(Text(c, es) + tail)| == |es| && forall k :: 0 <= k < |es| ==> Lines(Text(c, es) + tail)[k] == c.enc(es[k])
    ensures Tail(Text(c, es) + tail) == tail
  {
    hide Lines, Tail;
    if es == [] {
      assert Text(c, es) + tail == tail;
      LinesEnd(tail);
    } else {
      assert Written(c, es[0]);
      var rest := Text(c, es[1..]) + tail;
      assert Text(c, es) + tail == c.enc(es[0]) + "\n" + rest;
      LinesOfText(c, es[1..], tail);
      LinesStep(c.enc(es[0]), rest);
    }
  }

  lemma {:induction false} EventsOfLines(c: Codec, lines: seq<Bytes>, es: seq<Entry>, k: nat)
    requires Faithful(c) && Numbered(es) && |lines| == |es| && k <= |es|
    requires forall m :: 0 <= m < |es| ==> lines[m] == c.enc(es[m])
    ensures Events(c, lines, k) == Ok(es[..k])
  {
    if k > 0 {
      EventsOfLines(c, lines, es, k - 1);
      assert Written(c, es[k - 1]);
      assert es[..k] == es[..k - 1] + [es[k - 1]];
    }
  }

  /** Reading gives exactly the events on finished lines, and nothing from an unfinished one. */
  lemma ReadsWritten(c: Codec, raw: Bytes, es: seq<Entry>, tail: Bytes)
    requires Faithful(c) && Framed(c, raw, es, tail)
    ensures Tail(raw) == tail && Read(c, raw, true) == Ok(Journal(es, tail != ""))
    ensures Read(c, raw, false) == if tail == "" then Ok(Journal(es, false)) else Err(UnfinishedTail)
  {
    hide Lines, Tail, Events, Numbered, Text;
    LinesOfText(c, es, tail);
    EventsOfLines(c, Lines(raw), es, |es|);
    assert es[..|es|] == es;
  }

  lemma {:induction false} TextSnoc(c: Codec, es: seq<Entry>, e: Entry)
    ensures Text(c, es + [e]) == Text(c, es) + Line(c, e)
  {
    hide Line;
    if es == [] {
      assert es + [e] == [e];
      assert [e][1..] == [];
      assert Text(c, []) == "";
    } else {
      assert (es + [e])[1..] == es[1..] + [e];
      TextSnoc(c, es[1..], e);
      assert Line(c, es[0]) + (Text(c, es[1..]) + Line(c, e)) == Line(c, es[0]) + Text(c, es[1..]) + Line(c, e);
    }
  }

  lemma OneLinePrefix(t: Bytes, k: nat)
    requires OneLine(t) && k <= |t|
    ensures OneLine(t[..k])
  {
    assert forall x :: x in t[..k] ==> x in t;
  }

  /** Cutting the bytes anywhere leaves the events whose lines were kept whole, and a rest of one line. */
  lemma {:induction false} CutFramed(c: Codec, es: seq<Entry>, tail: Bytes, keep: nat) returns (m: nat, rest: Bytes)
    requires Faithful(c) && OneLine(tail) && keep <= |Text(c, es) + tail|
    ensures m <= |es| && (Text(c, es) + tail)[..keep] == Text(c, es[..m]) + rest && OneLine(rest)
    ensures forall q :: 0 <= q <= |es| && |Text(c, es[..q])| <= keep ==> q <= m
  {
    if es == [] {
      m, rest := 0, tail[..keep];
      assert Text(c, es) + tail == tail;
      assert es[..0] == [];
      OneLinePrefix(tail, keep);
      assert Text(c, []) + rest == rest;
    } else {
      var first, after := Line(c, es[0]), Text(c, es[1..]) + tail;
      assert Text(c, es) + tail == first + after;
      assert Written(c, es[0]);
      if keep < |first| {
        m, rest := CutInFirst(c, es, after, keep);
      } else {
        m, rest := CutFramed(c, es[1..], tail, keep - |first|);
        CutShift(c, es, m, rest, keep, after);
        m := m + 1;
      }
    }
  }

  lemma CutInFirst(c: Codec, es: seq<Entry>, after: Bytes, keep: nat) returns (m: nat, rest: Bytes)
    requires es != [] && OneLine(c.enc(es[0])) && keep < |Line(c, es[0])|
    ensures m == 0 && (Line(c, es[0]) + after)[..keep] == Text(c, es[..m]) + rest && OneLine(rest)
    ensures forall q :: 0 <= q <= |es| && |Text(c, es[..q])| <= keep ==> q <= m
  {
    m, rest := 0, c.enc(es[0])[..keep];
    OneLinePrefix(c.enc(es[0]), keep);
    assert es[..0] == [];
    assert Text(c, []) + rest == rest;
    forall q | 0 < q <= |es| ensures |Text(c, es[..q])| > keep {
      assert es[..q][0] == es[0];
    }
  }

  lemma CutShift(c: Codec, es: seq<Entry>, m: nat, rest: Bytes, keep: nat, after: Bytes)
    requires es != [] && m <= |es| - 1 && |Line(c, es[0])| <= keep <= |Line(c, es[0])| + |after|
    requires after[..keep - |Line(c, es[0])|] == Text(c, es[1..][..m]) + rest
    requires forall q :: 0 <= q <= |es| - 1 && |Text(c, es[1..][..q])| <= keep - |Line(c, es[0])| ==> q <= m
    ensures (Line(c, es[0]) + after)[..keep] == Text(c, es[..m + 1]) + rest
    ensures forall q :: 0 <= q <= |es| && |Text(c, es[..q])| <= keep ==> q <= m + 1
  {
    hide Line;
    var first := Line(c, es[0]);
    TextOfPrefix(c, es, m + 1);
    assert (first + after)[..keep] == first + after[..keep - |first|];
    assert first + (Text(c, es[1..][..m]) + rest) == first + Text(c, es[1..][..m]) + rest;
    forall q | 0 <= q <= |es| && |Text(c, es[..q])| <= keep ensures q <= m + 1 {
      if q > 0 {
        TextOfPrefix(c, es, q);
      }
    }
  }

  lemma TextOfPrefix(c: Codec, es: seq<Entry>, q: nat)
    requires 0 < q <= |es|
    ensures Text(c, es[..q]) == Line(c, es[0]) + Text(c, es[1..][..q - 1])
  {
    assert es[..q][0] == es[0] && es[..q][1..] == es[1..][..q - 1];
  }

  lemma {:induction false} TextGrows(c: Codec, es: seq<Entry>, q: nat)
    requires q <= |es|
    ensures |Text(c, es[..q])| <= |Text(c, es)|
  {
    if q > 0 {
      TextOfPrefix(c, es, q);
      TextGrows(c, es[1..], q - 1);
    } else {
      assert es[..0] == [];
    }
  }
}
