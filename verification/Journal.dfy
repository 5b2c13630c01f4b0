/** The append-only JSON-lines files of server/internal/app/event_journal.go, at the level of
    bytes: what an append writes, what a crash in the middle of one leaves, what the repair at the
    next start makes of it, and what replaying the file then yields. */
module Journal {
  import opened Bytes
  import opened Wrappers

  const NEWLINE: byte := 10
  const RETURN: byte := 13

  /** json.Marshal and json.Unmarshal, as far as the journal depends on them. */
  datatype Codec<!E> = Codec(encode: E -> seq<byte>, decode: seq<byte> -> Option<E>)

  /** Control characters are escaped inside strings and Go writes no others (section 7 of RFC 8259);
      an object ends with its closing brace, so no proper prefix of one is a JSON text (section 4). */
  ghost predicate JsonLike<E(!new)>(c: Codec<E>) {
    && (forall e: E :: c.encode(e) != [] && NEWLINE !in c.encode(e) && RETURN !in c.encode(e))
    && (forall e: E :: c.decode(c.encode(e)) == Some(e))
    && (forall e: E, p: seq<byte> | p < c.encode(e) :: c.decode(p) == None)
  }

  lemma EncodingOf<E(!new)>(c: Codec<E>, e: E, cut: nat)
    requires JsonLike(c) && cut <= |c.encode(e)|
    ensures NEWLINE !in c.encode(e) && NEWLINE !in c.encode(e)[..cut] && c.encode(e) != []
    ensures c.decode(c.encode(e)[..cut]) == if cut == |c.encode(e)| then Some(e) else None
    ensures c.decode(c.encode(e)) == Some(e)
  {
    assert cut < |c.encode(e)| ==> c.encode(e)[..cut] < c.encode(e);
    assert cut == |c.encode(e)| ==> c.encode(e)[..cut] == c.encode(e);
  }

  // ---- appending ----

  // append(data, '\n')
  function Line<E>(c: Codec<E>, e: E): (r: seq<byte>)
    ensures r != [] && |r| == |c.encode(e)| + 1
  {
    c.encode(e) + [NEWLINE]
  }

  function Encoded<E>(c: Codec<E>, es: seq<E>): seq<byte> {
    if es == [] then [] else Line(c, es[0]) + Encoded(c, es[1..])
  }

  lemma {:induction false} EncodedAppend<E>(c: Codec<E>, a: seq<E>, b: seq<E>)
    ensures Encoded(c, a + b) == Encoded(c, a) + Encoded(c, b)
  {
    if a == [] {
      assert a + b == b;
    } else {
      assert (a + b)[0] == a[0] && (a + b)[1..] == a[1..] + b;
      EncodedAppend(c, a[1..], b);
    }
  }

  lemma EncodedOne<E>(c: Codec<E>, e: E)
    ensures Encoded(c, [e]) == Line(c, e)
  {
    assert [e][1..] == [];
  }

  lemma {:induction false} EncodedEndsLine<E>(c: Codec<E>, es: seq<E>)
    ensures es != [] ==> Encoded(c, es) != [] && Encoded(c, es)[|Encoded(c, es)| - 1] == NEWLINE
  {
    if |es| > 1 { EncodedEndsLine(c, es[1..]); }
    if |es| == 1 { assert es == [es[0]]; EncodedOne(c, es[0]); }
  }

  // ---- reading ----

  // bytes.LastIndexByte(data, '\n') + 1
  function LineStart(data: seq<byte>): (b: nat)
    ensures b <= |data| && NEWLINE !in data[b..]
    ensures b > 0 ==> data[b - 1] == NEWLINE
  {
    if data == [] then 0
    else if data[|data| - 1] == NEWLINE then |data|
    else
      var b := LineStart(data[..|data| - 1]);
      assert data[b..] == data[..|data| - 1][b..] + [data[|data| - 1]];
      b
  }

  function FirstNewline(data: seq<byte>): (n: nat)
    ensures n <= |data| && NEWLINE !in data[..n]
    ensures n < |data| ==> data[n] == NEWLINE
  {
    if data == [] || data[0] == NEWLINE then 0
    else
      var n := 1 + FirstNewline(data[1..]);
      assert data[..n] == [data[0]] + data[1..][..n - 1];
      n
  }

  // bufio.ScanLines drops one carriage return at the end of a line.
  function DropReturn(line: seq<byte>): seq<byte> {
    if line != [] && line[|line| - 1] == RETURN then line[..|line| - 1] else line
  }

  function AfterLine(data: seq<byte>): (rest: seq<byte>)
    requires data != []
    ensures |rest| < |data|
  {
    var n := FirstNewline(data);
    if n == |data| then [] else data[n + 1..]
  }

  /** The records of a file in order, or nothing when some line does not decode. */
  function Load<E>(c: Codec<E>, data: seq<byte>): Option<seq<E>>
    decreases |data|
  {
    if data == [] then Some([])
    else
      match c.decode(DropReturn(data[..FirstNewline(data)]))
      case None => None
      case Some(e) =>
        match Load(c, AfterLine(data))
        case None => None
        case Some(es) => Some([e] + es)
  }

  lemma {:induction false} FirstNewlineAfter(line: seq<byte>, rest: seq<byte>)
    requires NEWLINE !in line
    ensures FirstNewline(line + [NEWLINE] + rest) == |line|
  {
    var data := line + [NEWLINE] + rest;
    if line == [] {
      assert data[0] == NEWLINE;
    } else {
      assert line[0] in line && data[0] == line[0];
      assert data[1..] == line[1..] + [NEWLINE] + rest;
      FirstNewlineAfter(line[1..], rest);
    }
  }

  lemma FirstLine<E(!new)>(c: Codec<E>, e: E, rest: seq<byte>)
    requires JsonLike(c)
    ensures var data := Line(c, e) + rest;
            data != [] && DropReturn(data[..FirstNewline(data)]) == c.encode(e) && AfterLine(data) == rest
  {
    var data := Line(c, e) + rest;
    var m := |c.encode(e)|;
    FirstNewlineAfter(c.encode(e), rest);
    assert data == c.encode(e) + [NEWLINE] + rest;
    assert data[..m] == c.encode(e) && data[m + 1..] == rest;
    assert c.encode(e)[m - 1] in c.encode(e);
  }

  lemma LoadLine<E(!new)>(c: Codec<E>, e: E, rest: seq<byte>)
    requires JsonLike(c) && Load(c, rest).Some?
    ensures Load(c, Line(c, e) + rest) == Some([e] + Load(c, rest).value)
  {
    hide FirstNewline, DropReturn, AfterLine, Line, JsonLike;
    FirstLine(c, e, rest);
    EncodingOf(c, e, |c.encode(e)|);
  }

  /** Reading back what was written yields the records in order. */
  lemma {:induction false} LoadEncoded<E(!new)>(c: Codec<E>, es: seq<E>)
    requires JsonLike(c)
    ensures Load(c, Encoded(c, es)) == Some(es)
  {
    if es != [] {
      hide Load, Line, JsonLike;
      LoadEncoded(c, es[1..]);
      LoadLine(c, es[0], Encoded(c, es[1..]));
      assert es == [es[0]] + es[1..];
    }
  }

  // ---- repairing ----

  /** The file after repair, and the copy of the damaged file if one was saved first. */
  datatype Repaired = Repaired(file: seq<byte>, copy: Option<seq<byte>>)

  function Repair<E>(c: Codec<E>, data: seq<byte>): Repaired {
    if data == [] || data[|data| - 1] == NEWLINE then Repaired(data, None)
    else
      var boundary := LineStart(data);
      if c.decode(data[boundary..]).Some? then Repaired(data + [NEWLINE], None)
      else Repaired(data[..boundary], Some(data))
  }

  /** On every file whatever: whole lines survive, bytes go only when a copy of the whole file is
      kept, the result ends at a line boundary, and a second repair finds nothing to do. */
  lemma RepairIsSafe<E>(c: Codec<E>, data: seq<byte>)
    ensures var r := Repair(c, data);
            && data[..LineStart(data)] <= r.file
            && (data <= r.file || r.copy == Some(data))
            && (r.copy.Some? ==> r.file == data[..LineStart(data)])
            && Repair(c, r.file) == Repaired(r.file, None)
  {
    var r := Repair(c, data);
    if r.copy.Some? && r.file != [] { assert r.file[|r.file| - 1] == NEWLINE; }
  }

  /** How many records of an append survive when the append is cut after the given bytes: the whole
      ones, counting one that lacks only its newline. */
  function Kept<E>(c: Codec<E>, batch: seq<E>, cut: nat): (k: nat)
    ensures k <= |batch|
  {
    if batch == [] then 0
    else
      var n := |c.encode(batch[0])|;
      if cut < n then 0
      else if cut == n then 1
      else 1 + Kept(c, batch[1..], cut - n - 1)
  }

  lemma {:induction false} LineStartBeforeTail(whole: seq<byte>, tail: seq<byte>)
    requires NEWLINE !in tail && (whole == [] || whole[|whole| - 1] == NEWLINE)
    ensures LineStart(whole + tail) == |whole|
  {
    if tail == [] {
      assert whole + tail == whole;
    } else {
      var data := whole + tail;
      var last := tail[|tail| - 1];
      assert last in tail && data[|data| - 1] == last;
      assert data[..|data| - 1] == whole + tail[..|tail| - 1];
      LineStartBeforeTail(whole, tail[..|tail| - 1]);
    }
  }

  // One record's bytes without its newline, cut somewhere, after whole lines.
  lemma RepairOneCut<E(!new)>(c: Codec<E>, es: seq<E>, e: E, cut: nat)
    requires JsonLike(c) && cut <= |c.encode(e)|
    ensures Repair(c, Encoded(c, es) + c.encode(e)[..cut]).file
         == Encoded(c, if cut == |c.encode(e)| then es + [e] else es)
  {
    var whole, tail := Encoded(c, es), c.encode(e)[..cut];
    var data := whole + tail;
    EncodedEndsLine(c, es);
    EncodingOf(c, e, cut);
    hide Encoded, LineStart, JsonLike;
    if cut == 0 {
      assert data == whole;
    } else {
      assert data[|data| - 1] == tail[cut - 1] && tail[cut - 1] in tail;
      LineStartBeforeTail(whole, tail);
      assert data[|whole|..] == tail && data[..|whole|] == whole;
      if cut == |c.encode(e)| {
        assert tail == c.encode(e);
        EncodedAppend(c, es, [e]);
        EncodedOne(c, e);
        assert data + [NEWLINE] == whole + Line(c, e);
      }
    }
  }

  lemma CutInFirst<E>(c: Codec<E>, batch: seq<E>, cut: nat)
    requires batch != [] && cut <= |c.encode(batch[0])|
    ensures |Encoded(c, batch)| >= cut && Encoded(c, batch)[..cut] == c.encode(batch[0])[..cut]
  {
    assert Encoded(c, batch) == Line(c, batch[0]) + Encoded(c, batch[1..]);
  }

  lemma CutBeyondFirst<E>(c: Codec<E>, es: seq<E>, batch: seq<E>, rest: nat)
    requires batch != [] && rest <= |Encoded(c, batch[1..])|
    ensures Encoded(c, es) + Encoded(c, batch)[..|Line(c, batch[0])| + rest]
         == Encoded(c, es + [batch[0]]) + Encoded(c, batch[1..])[..rest]
  {
    var line, more := Line(c, batch[0]), Encoded(c, batch[1..]);
    EncodedAppend(c, es, [batch[0]]);
    EncodedOne(c, batch[0]);
    assert (line + more)[..|line| + rest] == line + more[..rest];
    assert Encoded(c, es) + (line + more[..rest]) == (Encoded(c, es) + line) + more[..rest];
  }

  /** A crash that cuts an append at any byte leaves, after repair, every record that was there
      before and a whole-record prefix of the interrupted append. */
  lemma {:induction false} RepairCut<E(!new)>(c: Codec<E>, es: seq<E>, batch: seq<E>, cut: nat)
    requires JsonLike(c) && cut <= |Encoded(c, batch)|
    ensures Repair(c, Encoded(c, es) + Encoded(c, batch)[..cut]).file
         == Encoded(c, es + batch[..Kept(c, batch, cut)])
    decreases |batch|
  {
    hide Repair, JsonLike, Line;
    if batch == [] {
      RepairWhole(c, es);
      assert Encoded(c, es) + Encoded(c, batch)[..cut] == Encoded(c, es) && es + [] == es;
    } else {
      var n := |c.encode(batch[0])|;
      if cut <= n {
        CutInFirst(c, batch, cut);
        RepairOneCut(c, es, batch[0], cut);
        assert es + batch[..0] == es && batch[..1] == [batch[0]];
      } else {
        var rest := cut - n - 1;
        CutBeyondFirst(c, es, batch, rest);
        RepairCut(c, es + [batch[0]], batch[1..], rest);
        var k := Kept(c, batch[1..], rest);
        assert es + [batch[0]] + batch[1..][..k] == es + batch[..1 + k];
      }
    }
  }

  lemma RepairWhole<E>(c: Codec<E>, es: seq<E>)
    ensures Repair(c, Encoded(c, es)) == Repaired(Encoded(c, es), None)
  {
    EncodedEndsLine(c, es);
  }

  // ---- whole runs ----

  /** What can happen to one journal file: an append that completes (of one record or of a batch), and
      an append that a crash cuts; the next start then repairs the file before anything is appended.
      A start that is itself cut off has either changed nothing or finished the repair, which the
      next start leaves alone (RepairIsSafe). */
  datatype Happening<E> =
    | Wrote(batch: seq<E>)
    | Crashed(batch: seq<E>, cut: nat)

  function FileAfter<E>(c: Codec<E>, file: seq<byte>, h: Happening<E>): seq<byte> {
    match h
    case Wrote(batch) => file + Encoded(c, batch)
    case Crashed(batch, cut) => Repair(c, file + Upto(Encoded(c, batch), cut)).file
  }

  function Upto(data: seq<byte>, cut: nat): seq<byte> { if cut <= |data| then data[..cut] else data }

  function LogAfter<E>(c: Codec<E>, log: seq<E>, h: Happening<E>): seq<E> {
    match h
    case Wrote(batch) => log + batch
    case Crashed(batch, cut) => log + batch[..Kept(c, batch, cut)]
  }

  function FileAfterRun<E>(c: Codec<E>, file: seq<byte>, run: seq<Happening<E>>): seq<byte>
    decreases |run|
  {
    if run == [] then file else FileAfterRun(c, FileAfter(c, file, run[0]), run[1..])
  }

  function LogAfterRun<E>(c: Codec<E>, log: seq<E>, run: seq<Happening<E>>): seq<E>
    decreases |run|
  {
    if run == [] then log else LogAfterRun(c, LogAfter(c, log, run[0]), run[1..])
  }

  lemma {:induction false} KeptBeyond<E>(c: Codec<E>, batch: seq<E>, cut: nat)
    requires cut >= |Encoded(c, batch)|
    ensures Kept(c, batch, cut) == |batch|
  {
    if batch != [] { KeptBeyond(c, batch[1..], cut - |c.encode(batch[0])| - 1); }
  }

  lemma FileTracksLog<E(!new)>(c: Codec<E>, log: seq<E>, h: Happening<E>)
    requires JsonLike(c)
    ensures FileAfter(c, Encoded(c, log), h) == Encoded(c, LogAfter(c, log, h))
  {
    match h {
      case Wrote(batch) => EncodedAppend(c, log, batch);
      case Crashed(batch, cut) => CrashTracksLog(c, log, batch, cut);
    }
  }

  lemma CrashTracksLog<E(!new)>(c: Codec<E>, log: seq<E>, batch: seq<E>, cut: nat)
    requires JsonLike(c)
    ensures Repair(c, Encoded(c, log) + Upto(Encoded(c, batch), cut)).file
         == Encoded(c, log + batch[..Kept(c, batch, cut)])
  {
    var n := |Encoded(c, batch)|;
    if cut <= n {
      RepairCut(c, log, batch, cut);
    } else {
      KeptBeyond(c, batch, cut);
      KeptBeyond(c, batch, n);
      RepairCut(c, log, batch, n);
      assert Encoded(c, batch)[..n] == Encoded(c, batch);
    }
  }

  /** Over every run of appends, crashes and starts, the file stays well formed and loads as every
      completed record in order plus, for each interrupted append, a whole-record prefix of it. */
  lemma {:induction false} RunTracksLog<E(!new)>(c: Codec<E>, log: seq<E>, run: seq<Happening<E>>)
    requires JsonLike(c)
    ensures FileAfterRun(c, Encoded(c, log), run) == Encoded(c, LogAfterRun(c, log, run))
    ensures Load(c, FileAfterRun(c, Encoded(c, log), run)) == Some(LogAfterRun(c, log, run))
    decreases |run|
  {
    if run == [] {
      LoadEncoded(c, log);
    } else {
      FileTracksLog(c, log, run[0]);
      RunTracksLog(c, LogAfter(c, log, run[0]), run[1..]);
    }
  }

  // ---- the assumptions on the codec can be met ----

  // A record with one field, written as an object: {xx...x}
  function TallyEncode(n: nat): seq<byte> { [123] + seq(n, i => 120) + [125] }

  function TallyDecode(line: seq<byte>): Option<nat> {
    if |line| >= 2 && line == TallyEncode(|line| - 2) then Some(|line| - 2) else None
  }

  lemma JsonLikeExists()
    ensures JsonLike(Codec(TallyEncode, TallyDecode))
  {
    hide TallyEncode, TallyDecode;
    forall n: nat, p: seq<byte> | p < TallyEncode(n) ensures TallyDecode(p) == None { TallyPrefix(n, p); }
    forall n: nat
      ensures TallyDecode(TallyEncode(n)) == Some(n) && TallyEncode(n) != []
      ensures NEWLINE !in TallyEncode(n) && RETURN !in TallyEncode(n)
    {
      TallyWhole(n);
    }
  }

  lemma TallyWhole(n: nat)
    ensures TallyDecode(TallyEncode(n)) == Some(n) && TallyEncode(n) != []
    ensures NEWLINE !in TallyEncode(n) && RETURN !in TallyEncode(n)
  {
  }

  lemma TallyPrefix(n: nat, p: seq<byte>)
    requires p < TallyEncode(n)
    ensures TallyDecode(p) == None
  {
    // A prefix long enough to be an object ends in x, not in a closing brace.
    if |p| >= 2 { assert p[|p| - 1] == TallyEncode(n)[|p| - 1] == 120 != TallyEncode(|p| - 2)[|p| - 1]; }
  }
}
