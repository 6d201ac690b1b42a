/** Annex-B byte streams: the start-code scanner and the printer it inverts. */
module AnnexB {
  import opened Bytes

  type Nal = seq<byte>

  predicate StartCodeAt(d: seq<byte>, i: int) {
    0 <= i && i + 3 <= |d| && d[i] == 0 && d[i + 1] == 0 && d[i + 2] == 1
  }

  ghost predicate NoStartCode(d: seq<byte>) {
    forall i :: 0 <= i < |d| ==> !StartCodeAt(d, i)
  }

  // ---------------------------------------------------------------- scanning

  /** The first start code at or after `i`, or the end of the data. */
  function Next(d: seq<byte>, i: nat): (r: nat)
    requires i <= |d|
    ensures i <= r <= |d|
    ensures r == |d| || StartCodeAt(d, r)
    ensures forall k :: i <= k < r ==> !StartCodeAt(d, k)
    decreases |d| - i
  {
    if i + 3 > |d| then |d| else if StartCodeAt(d, i) then i else Next(d, i + 1)
  }

  /** Positions right after each start code met when scanning from `i`. */
  function CodeEnds(d: seq<byte>, i: nat): seq<int>
    requires i <= |d|
    decreases |d| - i
  {
    var s := Next(d, i);
    if s == |d| then [] else [s + 3] + CodeEnds(d, s + 3)
  }

  /** Everything between consecutive start codes, trailing zeros included. */
  function Payloads(d: seq<byte>, i: nat): seq<seq<byte>>
    requires i <= |d|
    decreases |d| - i
  {
    var s := Next(d, i);
    if s == |d| then [] else [d[s + 3..Next(d, s + 3)]] + Payloads(d, s + 3)
  }

  function Strip(p: seq<byte>): (r: Nal)
    ensures r <= p
    ensures r == [] || r[|r| - 1] != 0
    ensures forall k :: |r| <= k < |p| ==> p[k] == 0
  {
    if p != [] && p[|p| - 1] == 0 then Strip(p[..|p| - 1]) else p
  }

  function StripAll(ps: seq<seq<byte>>): seq<Nal> {
    if ps == [] then []
    else (if Strip(ps[0]) == [] then [] else [Strip(ps[0])]) + StripAll(ps[1..])
  }

  function NalUnits(d: seq<byte>): seq<Nal> {
    StripAll(Payloads(d, 0))
  }

  lemma ScanStep(d: seq<byte>, i: nat)
    requires i + 3 <= |d|
    ensures CodeEnds(d, i) == if d[i..i + 3] == [0, 0, 1] then [i + 3] + CodeEnds(d, i + 3) else CodeEnds(d, i + 1)
  {
    hide StartCodeAt;
    CodeSlice(d, i);
  }

  lemma NoMoreStarts(d: seq<byte>, i: nat)
    requires i <= |d| < i + 3
    ensures CodeEnds(d, i) == []
  {
  }

  lemma CodeSlice(d: seq<byte>, i: nat)
    requires i + 3 <= |d|
    ensures StartCodeAt(d, i) <==> d[i..i + 3] == [0, 0, 1]
  {
    var c := d[i..i + 3];
    assert c[0] == d[i] && c[1] == d[i + 1] && c[2] == d[i + 2];
    assert c == [c[0], c[1], c[2]];
  }

  /** The first pass of the scanner: where each payload starts. */
  method ScanStarts(data: seq<byte>) returns (starts: seq<int>)
    ensures starts == CodeEnds(data, 0)
  {
    starts := [];
    var i := 0;
    hide *;
    while i + 3 <= |data|
      invariant 0 <= i <= |data|
      invariant starts + CodeEnds(data, i) == CodeEnds(data, 0)
    {
      ScanStep(data, i);
      if data[i..i + 3] == [0, 0, 1] {
        starts := starts + [i + 3];
        i := i + 3;
      } else {
        i := i + 1;
      }
    }
    NoMoreStarts(data, i);
  }

  method Trim(p: seq<byte>) returns (nal: Nal)
    ensures nal == Strip(p)
  {
    nal := p;
    while nal != [] && nal[|nal| - 1] == 0
      invariant Strip(nal) == Strip(p)
      decreases |nal|
    {
      nal := nal[..|nal| - 1];
    }
  }

  lemma CutStep(d: seq<byte>, at: nat, starts: seq<int>, n: nat)
    requires at <= |d| && n < |starts| && starts[n..] == CodeEnds(d, at)
    ensures Next(d, at) + 3 == starts[n] <= |d|
    ensures starts[n + 1..] == CodeEnds(d, starts[n])
    ensures Next(d, starts[n]) == if n + 1 < |starts| then starts[n + 1] - 3 else |d|
    ensures Payloads(d, at) == [d[starts[n]..Next(d, starts[n])]] + Payloads(d, starts[n])
  {
    hide StartCodeAt;
    assert starts[n] == starts[n..][0];
    assert starts[n + 1..] == starts[n..][1..];
    if n + 1 < |starts| {
      assert starts[n + 1] == starts[n + 1..][0];
    }
  }

  /** One step of the second pass: trim a payload and keep what is left of it. */
  method KeepTrimmed(units: seq<Nal>, payload: seq<byte>, ghost rest: seq<seq<byte>>)
    returns (kept: seq<Nal>)
    ensures kept + StripAll(rest) == units + StripAll([payload] + rest)
  {
    var nal := Trim(payload);
    kept := if nal != [] then units + [nal] else units;
    StripAllCons(payload, rest);
    assert units + ([nal] + StripAll(rest)) == (units + [nal]) + StripAll(rest);
  }

  /** The scanner: collect the starts, cut, trim, and drop what is empty. */
  method ScanNalUnits(data: seq<byte>) returns (units: seq<Nal>)
    ensures units == NalUnits(data)
  {
    var starts := ScanStarts(data);
    ghost var at: nat := 0;
    units := [];
    assert NalUnits(data) == StripAll(Payloads(data, 0));
    hide *;
    for n := 0 to |starts|
      invariant at <= |data|
      invariant starts[n..] == CodeEnds(data, at)
      invariant units + StripAll(Payloads(data, at)) == NalUnits(data)
    {
      CutStep(data, at, starts, n);
      var end := if n + 1 < |starts| then starts[n + 1] - 3 else |data|;
      at := starts[n];
      units := KeepTrimmed(units, data[starts[n]..end], Payloads(data, at));
    }
    NoStartsNoPayloads(data, at);
  }

  lemma StripAllCons(p: seq<byte>, ps: seq<seq<byte>>)
    ensures StripAll([p] + ps) == (if Strip(p) == [] then [] else [Strip(p)]) + StripAll(ps)
  {
    assert ([p] + ps)[1..] == ps;
  }

  lemma NoStartsNoPayloads(d: seq<byte>, at: nat)
    requires at <= |d| && CodeEnds(d, at) == []
    ensures StripAll(Payloads(d, at)) == []
  {
  }

  // ---------------------------------------------------------------- the grammar

  /** Each payload behind a three-byte start code. */
  function Coded(ps: seq<seq<byte>>): seq<byte> {
    if ps == [] then [] else [0, 0, 1] + (ps[0] + Coded(ps[1..]))
  }

  /** `d` is `lead`, then payloads behind start codes, none of them holding a start code. */
  ghost predicate IsStream(d: seq<byte>, lead: seq<byte>, ps: seq<seq<byte>>) {
    && d == lead + Coded(ps)
    && NoStartCode(lead)
    && AllClean(ps)
  }

  ghost predicate AllClean(ps: seq<seq<byte>>) {
    forall n :: 0 <= n < |ps| ==> NoStartCode(ps[n])
  }

  lemma {:induction false} NextIs(d: seq<byte>, i: nat, r: nat)
    requires i <= r <= |d|
    requires r == |d| || StartCodeAt(d, r)
    requires forall k :: i <= k < r ==> !StartCodeAt(d, k)
    ensures Next(d, i) == r
    decreases r - i
  {
    if i < r && i + 3 <= |d| {
      assert !StartCodeAt(d, i);
      NextIs(d, i + 1, r);
    }
  }

  /** A start code cannot begin in a clean stretch and reach into the code behind it,
      because its third byte would have to be a zero of that code. */
  lemma NextOfStream(d: seq<byte>, at: nat, lead: seq<byte>, ps: seq<seq<byte>>)
    requires at <= |d| && d[at..] == lead + Coded(ps)
    requires NoStartCode(lead)
    ensures at + |lead| <= |d|
    ensures Next(d, at) == at + |lead|
    ensures d[at..at + |lead|] == lead
    ensures ps != [] ==> at + |lead| + 3 <= |d| && d[at + |lead| + 3..] == ps[0] + Coded(ps[1..])
    ensures ps == [] <==> at + |lead| == |d|
  {
    var c := Coded(ps);
    var r := at + |lead|;
    assert |d| == r + |c|;
    assert forall k :: 0 <= k < |lead| ==> d[at..][k] == lead[k];
    assert forall k :: 0 <= k < |c| ==> d[at..][|lead| + k] == c[k];
    assert forall k :: 0 <= k < |lead| ==> d[at + k] == lead[k];
    assert forall k :: 0 <= k < |c| ==> d[r + k] == c[k];
    if ps != [] {
      assert d[r] == c[0] && d[r + 1] == c[1] && d[r + 2] == c[2];
      assert d[r + 3..] == c[3..];
    }
    forall k | at <= k < r
      ensures !StartCodeAt(d, k)
    {
      assert k + 3 <= r && StartCodeAt(d, k) ==> StartCodeAt(lead, k - at);
    }
    NextIs(d, at, r);
  }

  lemma {:induction false} PayloadsOfStream(d: seq<byte>, at: nat, lead: seq<byte>, ps: seq<seq<byte>>)
    requires at <= |d| && d[at..] == lead + Coded(ps)
    requires NoStartCode(lead) && AllClean(ps)
    ensures Payloads(d, at) == ps
    decreases |ps|
  {
    hide NoStartCode, StartCodeAt, Coded;
    NextOfStream(d, at, lead, ps);
    if ps != [] {
      var r := at + |lead| + 3;
      NextOfStream(d, r, ps[0], ps[1..]);
      PayloadsOfStream(d, r, ps[0], ps[1..]);
    }
  }

  lemma CleanCut(d: seq<byte>, i: nat)
    requires i <= |d|
    ensures NoStartCode(d[i..Next(d, i)])
  {
    var c := d[i..Next(d, i)];
    forall k | 0 <= k < |c|
      ensures !StartCodeAt(c, k)
    {
      assert !StartCodeAt(d, i + k);
    }
  }

  lemma StreamStep(d: seq<byte>, i: nat, s: nat, p: seq<byte>, tail: seq<seq<byte>>)
    requires i <= s && StartCodeAt(d, s) && d[s + 3..] == p + Coded(tail)
    ensures d[i..] == d[i..s] + Coded([p] + tail)
  {
    CutAtCode(d, i, s);
    CodedCons(p, tail);
  }

  lemma PayloadsStep(d: seq<byte>, i: nat)
    requires i <= |d|
    ensures var s := Next(d, i);
            if s == |d| then Payloads(d, i) == []
            else s + 3 <= |d| && Payloads(d, i) == [d[s + 3..Next(d, s + 3)]] + Payloads(d, s + 3)
  {
  }

  lemma {:induction false} StreamOfPayloads(d: seq<byte>, i: nat)
    requires i <= |d|
    ensures d[i..] == d[i..Next(d, i)] + Coded(Payloads(d, i))
    decreases |d| - i
  {
    hide *;
    var s := Next(d, i);
    PayloadsStep(d, i);
    if s == |d| {
      NothingCoded(d[i..]);
    } else {
      StreamOfPayloads(d, s + 3);
      StreamStep(d, i, s, d[s + 3..Next(d, s + 3)], Payloads(d, s + 3));
    }
  }

  lemma {:induction false} PayloadsAreClean(d: seq<byte>, i: nat)
    requires i <= |d|
    ensures AllClean(Payloads(d, i))
    decreases |d| - i
  {
    hide *;
    var s := Next(d, i);
    PayloadsStep(d, i);
    if s == |d| {
      NothingCoded([]);
    } else {
      PayloadsAreClean(d, s + 3);
      CleanCut(d, s + 3);
      AllCleanCons(d[s + 3..Next(d, s + 3)], Payloads(d, s + 3));
    }
  }

  lemma NothingCoded(lead: seq<byte>)
    ensures lead == lead + Coded([]) && AllClean([])
  {
  }

  lemma CutAtCode(d: seq<byte>, i: nat, s: nat)
    requires i <= s && StartCodeAt(d, s)
    ensures d[i..] == d[i..s] + ([0, 0, 1] + d[s + 3..])
  {
  }

  lemma CodedCons(p: seq<byte>, tail: seq<seq<byte>>)
    ensures Coded([p] + tail) == [0, 0, 1] + (p + Coded(tail))
  {
    assert ([p] + tail)[1..] == tail;
  }

  lemma AllCleanCons(p: seq<byte>, tail: seq<seq<byte>>)
    requires NoStartCode(p) && AllClean(tail)
    ensures AllClean([p] + tail)
  {
  }

  /** The scanner meets its grammar: a byte string can be read as a stream in exactly one
      way, and the units are the trimmed, nonempty payloads of that reading. */
  lemma ScanIsTheGrammar(d: seq<byte>, units: seq<Nal>)
    ensures NalUnits(d) == units
       <==> exists lead, ps :: IsStream(d, lead, ps) && units == StripAll(ps)
  {
    StreamOfPayloads(d, 0);
    PayloadsAreClean(d, 0);
    CleanCut(d, 0);
    assert d[0..] == d;
    assert IsStream(d, d[0..Next(d, 0)], Payloads(d, 0));
    forall lead, ps | IsStream(d, lead, ps)
      ensures NalUnits(d) == StripAll(ps)
    {
      PayloadsOfStream(d, 0, lead, ps);
    }
  }

  // ---------------------------------------------------------------- printing

  /** A unit the printer can be trusted with. */
  ghost predicate GoodUnit(u: Nal) {
    u != [] && u[|u| - 1] != 0 && NoStartCode(u)
  }

  ghost predicate GoodUnits(us: seq<Nal>) {
    forall n :: 0 <= n < |us| ==> GoodUnit(us[n])
  }

  /** Each unit behind a four-byte start code. */
  function Print(us: seq<Nal>): seq<byte> {
    if us == [] then [] else [0, 0, 0, 1] + (us[0] + Print(us[1..]))
  }

  lemma {:induction false} PrintAppend(a: seq<Nal>, b: seq<Nal>)
    ensures Print(a + b) == Print(a) + Print(b)
  {
    if a == [] {
      assert a + b == b;
    } else {
      assert (a + b)[1..] == a[1..] + b;
      PrintAppend(a[1..], b);
    }
  }

  lemma {:induction false} StripAllGood(ps: seq<seq<byte>>)
    requires AllClean(ps)
    ensures GoodUnits(StripAll(ps))
  {
    if ps != [] {
      StripAllGood(ps[1..]);
      var u := Strip(ps[0]);
      assert NoStartCode(ps[0]);
      assert forall k :: 0 <= k < |u| ==> StartCodeAt(u, k) ==> StartCodeAt(ps[0], k);
    }
  }

  /** Every unit the scanner returns is nonempty, holds no start code and does not end in 0. */
  lemma UnitsAreGood(d: seq<byte>)
    ensures GoodUnits(NalUnits(d))
  {
    PayloadsAreClean(d, 0);
    StripAllGood(Payloads(d, 0));
  }

  /** The payloads of a printed list: the zero that opens a four-byte start code is read
      as the last byte of the payload in front of it. */
  function PrintedPayloads(us: seq<Nal>): seq<seq<byte>> {
    if us == [] then []
    else [if |us| == 1 then us[0] else us[0] + [0]] + PrintedPayloads(us[1..])
  }

  lemma StripOneZero(u: Nal)
    requires GoodUnit(u)
    ensures Strip(u) == u && Strip(u + [0]) == u
    ensures NoStartCode(u + [0])
  {
    assert (u + [0])[..|u|] == u;
    assert forall k :: 0 <= k < |u| + 1 ==> StartCodeAt(u + [0], k) ==> StartCodeAt(u, k);
  }

  lemma MoveZero(u: seq<byte>, x: seq<byte>)
    ensures [0, 0, 0, 1] + x == [0] + ([0, 0, 1] + x)
    ensures u + ([0] + x) == (u + [0]) + x
  {
  }

  lemma {:induction false} PrintedIsCoded(us: seq<Nal>)
    requires us != []
    ensures Print(us) == [0] + Coded(PrintedPayloads(us))
  {
    var u, tail := us[0], PrintedPayloads(us[1..]);
    var p := PrintedPayloads(us)[0];
    if |us| > 1 {
      PrintedIsCoded(us[1..]);
      MoveZero(u, Coded(tail));
    } else {
      assert us[1..] == [];
    }
    CodedCons(p, tail);
    MoveZero(u, p + Coded(tail));
  }

  lemma {:induction false} PrintedPayloadsTrim(us: seq<Nal>)
    requires GoodUnits(us)
    ensures StripAll(PrintedPayloads(us)) == us && AllClean(PrintedPayloads(us))
  {
    hide NoStartCode;
    if us != [] {
      assert GoodUnit(us[0]);
      StripOneZero(us[0]);
      PrintedPayloadsTrim(us[1..]);
      AllCleanCons(PrintedPayloads(us)[0], PrintedPayloads(us[1..]));
      assert PrintedPayloads(us)[1..] == PrintedPayloads(us[1..]);
    }
  }

  /** Scanning undoes printing. */
  lemma ScanOfPrint(us: seq<Nal>)
    requires GoodUnits(us)
    ensures NalUnits(Print(us)) == us
  {
    if us == [] {
      assert Payloads(Print(us), 0) == [];
    } else {
      PrintedIsCoded(us);
      PrintedPayloadsTrim(us);
      assert IsStream(Print(us), [0], PrintedPayloads(us));
      ScanIsTheGrammar(Print(us), us);
    }
  }
}
