/** The hash-chained, append-only ledger kept as a JSON-lines file
    (backend/blockchain_mock.py): appending a record linked to the last one,
    and replaying the file to check every hash and every link. */
module HashChain {
  import opened Wrappers
  import opened JsonValue
  import opened Text

  /** The sentinel `prev_hash` of the first record. */
  const Genesis: string := "GENESIS"

  /** The collaborators the ledger calls but does not define: the SHA-256 hex
      digest of a text, `json.dumps(.., sort_keys=True, separators=(",",":"))`
      (the canonical form that is hashed), `json.dumps(.., separators=(",",":"))`
      (the form written to the file) and `json.loads` (None when it raises). */
  datatype Codec = Codec(
    sha256: string -> string,
    canonical: Json -> string,
    dumps: Json -> string,
    loads: string -> Option<Json>)

  /** What the ledger relies on about JSON: a compact dump is one non-empty line
      with no surrounding white space, and `json.loads` reads it back, with or
      without the line's '\n'. */
  ghost predicate WellBehaved(c: Codec) {
    (forall j :: c.dumps(j) != [] && c.loads(c.dumps(j)) == Some(j) && c.loads(c.dumps(j) + ['\n']) == Some(j))
    && (forall j {:trigger NoNewline(c.dumps(j))} :: NoNewline(c.dumps(j)))
    && (forall j {:trigger Strip(c.dumps(j))} :: Strip(c.dumps(j)) == c.dumps(j))
  }

  /** The idealisation under which tampering is detectable: neither the
      canonical encoding nor the digest has collisions. */
  ghost predicate Injective(c: Codec) {
    (forall a, b :: c.canonical(a) == c.canonical(b) ==> a == b)
    && (forall x, y :: c.sha256(x) == c.sha256(y) ==> x == y)
  }

  /** `_hash_record`: the digest of the canonical encoding. The encoding sorts
      the members, so the digest depends on the record's value only; with no
      collisions, the digest determines the record. */
  function HashRecord(c: Codec, r: Json): (h: string)
    ensures Injective(c) ==> forall r' :: c.sha256(c.canonical(r')) == h ==> r' == r
  {
    c.sha256(c.canonical(r))
  }

  /** The object `{ts, prev_hash, payload}` that is hashed; it has no `hash` member. */
  function Body(ts: Json, prev: Json, payload: Json): Json {
    JObj(map["ts" := ts, "prev_hash" := prev, "payload" := payload])
  }

  /** A record as `append_entry` builds and returns it. `prevHash` is whatever
      the last line's `hash` member held, hence a JSON value. */
  datatype Record = Record(ts: Float, prevHash: Json, payload: Json, hash: string)

  function ToJson(r: Record): Json {
    JObj(map["ts" := JNum(r.ts), "prev_hash" := r.prevHash, "payload" := r.payload, "hash" := JStr(r.hash)])
  }

  /** The line `append_entry` writes for a record. */
  function Line(c: Codec, r: Record): string {
    c.dumps(ToJson(r)) + ['\n']
  }

  /** A record whose stored hash is the digest of its own body. */
  ghost predicate IsSealed(c: Codec, r: Record) {
    r.hash == HashRecord(c, Body(JNum(r.ts), r.prevHash, r.payload))
  }

  function Seal(c: Codec, ts: Float, prev: Json, payload: Json): (r: Record)
    ensures IsSealed(c, r) && r.ts == ts && r.prevHash == prev && r.payload == payload
  {
    Record(ts, prev, payload, HashRecord(c, Body(JNum(ts), prev, payload)))
  }

  // ---------------------------------------------------------------------------
  // Finding the last line: the backward byte scan of append_entry

  /** The largest index in 1..k holding '\n', or 0 when there is none. */
  function LastNewlineIn(f: string, k: int): (j: nat)
    requires k < |f|
    ensures j == 0 || j <= k
    ensures 0 < j ==> f[j] == '\n'
    ensures forall i :: j < i <= k ==> f[i] != '\n'
    decreases k
  {
    if k <= 0 then 0 else if f[k] == '\n' then k else LastNewlineIn(f, k - 1)
  }

  /** Where the file position stands when the scan stops. The scan first reads
      at end of file, so the final byte is never looked at, and it stops at
      position 0 without looking at byte 0. */
  function ScanStart(f: string): (s: nat)
    ensures s <= |f|
  {
    if |f| <= 1 then |f|
    else
      var j := LastNewlineIn(f, |f| - 2);
      if j == 0 then 0 else j + 1
  }

  /** `f.readline().decode().strip()` after the scan. */
  function TailLine(f: string): string {
    Strip(ReadLineFrom(f, ScanStart(f)))
  }

  /** The backward scan of `append_entry`: `pos` walks back from the end; `cur` is the file
      position, which `f.read(1)` advances and `f.seek(pos)` resets. */
  method ReadLastLine(f: string) returns (line: string)
    ensures line == TailLine(f)
  {
    var pos := |f| - 1;
    var cur := |f|;
    while pos > 0
      invariant -1 <= pos < |f|
      invariant (pos == |f| - 1 && cur == |f|)
             || (cur == pos && 0 <= pos <= |f| - 2 && forall i :: pos < i <= |f| - 2 ==> f[i] != '\n')
      decreases pos
    {
      var b := if cur < |f| then [f[cur]] else [];
      cur := cur + |b|;
      if b == ['\n'] {
        assert 0 < pos <= |f| - 2 && f[pos] == '\n';
        assert LastNewlineIn(f, |f| - 2) == pos;
        break;
      }
      pos := pos - 1;
      cur := pos;
    }
    assert cur == ScanStart(f);
    line := Strip(ReadLineFrom(f, cur));
  }

  /** The scan finds the line that was appended last, provided the text before
      it is empty or ends a line that starts after byte 0. */
  lemma TailOfAppended(pre: string, line: string)
    requires NoNewline(line)
    requires pre == [] || (|pre| >= 2 && pre[|pre| - 1] == '\n')
    ensures TailLine(pre + (line + ['\n'])) == Strip(line)
  {
    var f := pre + (line + ['\n']);
    if |f| == 1 {
      assert ReadLineFrom(f, ScanStart(f)) == [];
    } else {
      var j := LastNewlineIn(f, |f| - 2);
      if pre == [] {
        assert forall i :: 0 <= i < |f| - 1 ==> f[i] == line[i];
        assert j == 0;
      } else {
        assert f[|pre| - 1] == '\n';
        assert forall i :: |pre| <= i < |f| - 1 ==> f[i] == line[i - |pre|];
        assert j == |pre| - 1;
      }
      assert ScanStart(f) == |pre|;
      assert f[|pre|..] == line + ['\n'] + [];
      LineLengthOfLine(line, []);
      assert ReadLineFrom(f, |pre|) == line + ['\n'];
      StripNewline(line);
    }
  }

  /** As written, in a ledger made of a blank line followed by a single line,
      the scan never sees the '\n' at byte 0: it reads the blank line, so the
      record on the second line is not found. */
  lemma LeadingBlankLineHidesTail(c: Codec, line: string, ts: Float, entry: Json)
    requires NoNewline(line)
    ensures TailLine("\n" + line + "\n") == []
    ensures NewRecord(c, "\n" + line + "\n", ts, entry).prevHash == JStr(Genesis)
  {
    var f := "\n" + line + "\n";
    assert forall i :: 1 <= i <= |f| - 2 ==> f[i] == line[i - 1];
    assert LastNewlineIn(f, |f| - 2) == 0;
    assert f[0] == '\n';
    assert ReadLineFrom(f, 0) == "\n";
    assert StripRight("\n") == [];
  }

  // ---------------------------------------------------------------------------
  // Appending

  /** `prev_hash` obtained from the stripped last line: its `hash` member, or
      GENESIS when the line is empty, is not JSON (`json.loads` raises), is not
      an object (`.get` raises) or has no `hash` member. */
  function PrevHash(c: Codec, lastLine: string): (p: Json)
    ensures lastLine != [] && c.loads(lastLine).Some? && c.loads(lastLine).value.JObj?
            && "hash" in c.loads(lastLine).value.fields
            ==> p == c.loads(lastLine).value.fields["hash"]
    ensures p != JStr(Genesis) ==>
              lastLine != [] && c.loads(lastLine).Some?
              && c.loads(lastLine).value.JObj? && "hash" in c.loads(lastLine).value.fields
  {
    if lastLine == [] then JStr(Genesis)
    else match c.loads(lastLine)
      case Some(JObj(m)) => if "hash" in m then m["hash"] else JStr(Genesis)
      case _ => JStr(Genesis)
  }

  /** The record `append_entry(entry)` builds when the file holds `f`. */
  function NewRecord(c: Codec, f: string, ts: Float, entry: Json): Record {
    Seal(c, ts, PrevHash(c, TailLine(f)), entry)
  }

  datatype Op = Op(ts: Float, entry: Json)

  /** The file after `append_entry`. */
  function Appended(c: Codec, f: string, op: Op): string {
    f + Line(c, NewRecord(c, f, op.ts, op.entry))
  }

  /** The first record of an empty ledger is linked to GENESIS. */
  lemma GenesisFirst(c: Codec, ts: Float, entry: Json)
    ensures NewRecord(c, [], ts, entry).prevHash == JStr(Genesis)
  {
    assert ReadLineFrom([], 0) == [];
  }

  /** After a record is appended, the next record is linked to its hash. */
  lemma NextLinksToLast(c: Codec, pre: string, r: Record, ts: Float, entry: Json)
    requires WellBehaved(c)
    requires pre == [] || (|pre| >= 2 && pre[|pre| - 1] == '\n')
    ensures NewRecord(c, pre + Line(c, r), ts, entry).prevHash == JStr(r.hash)
  {
    var line := c.dumps(ToJson(r));
    assert NoNewline(line) && Strip(line) == line;
    TailOfAppended(pre, line);
    assert c.loads(line) == Some(ToJson(r));
  }

  /** The fall-back: an unreadable last line, or one without `hash`, links to GENESIS. */
  lemma UnreadableTailLinksToGenesis(c: Codec, pre: string, line: string, ts: Float, entry: Json)
    requires NoNewline(line) && (pre == [] || (|pre| >= 2 && pre[|pre| - 1] == '\n'))
    requires c.loads(Strip(line)).None? || !c.loads(Strip(line)).value.JObj?
          || "hash" !in c.loads(Strip(line)).value.fields
    ensures NewRecord(c, pre + (line + ['\n']), ts, entry).prevHash == JStr(Genesis)
  {
    TailOfAppended(pre, line);
  }

  // ---------------------------------------------------------------------------
  // Verifying

  /** What one line of the file does to the replay. */
  datatype Step = Skip | Accept(hash: string) | Reject | Raise

  /** The members of a parsed line have the keys the check reads. */
  predicate HasBody(m: map<string, Json>) {
    "ts" in m && "prev_hash" in m && "payload" in m
  }

  /** A parsed record whose stored hash is the digest of its body and whose
      `prev_hash` is the expected one. */
  predicate Consistent(c: Codec, m: map<string, Json>, prev: string)
    requires HasBody(m)
  {
    "hash" in m && m["hash"] == JStr(HashRecord(c, Body(m["ts"], m["prev_hash"], m["payload"])))
    && m["prev_hash"] == JStr(prev)
  }

  /** One iteration of `verify_chain`'s loop over the lines, with expected `prev`. */
  function CheckLine(c: Codec, line: string, prev: string): Step
  {
    if Strip(line) == [] then Skip
    else match c.loads(line)
      case None => Raise
      case Some(rec) =>
        if !rec.JObj? then Raise
        else
          var m := rec.fields;
          if "ts" !in m || "prev_hash" !in m || "payload" !in m then Raise
          else
            var expected := HashRecord(c, Body(m["ts"], m["prev_hash"], m["payload"]));
            if "hash" !in m || m["hash"] != JStr(expected) || m["prev_hash"] != JStr(prev) then Reject
            else Accept(expected)
  }

  /** What one iteration of the loop decides: a blank line is skipped; a line
      that does not parse to an object with `ts`, `prev_hash` and `payload`
      raises; a consistent record is accepted and hands its own stored hash
      on; anything else is a mismatch. */
  lemma CheckLineSpec(c: Codec, line: string, prev: string)
    ensures CheckLine(c, line, prev) == Skip <==> Strip(line) == []
    ensures CheckLine(c, line, prev) == Raise <==>
              Strip(line) != []
              && (c.loads(line).None? || !c.loads(line).value.JObj? || !HasBody(c.loads(line).value.fields))
    ensures CheckLine(c, line, prev).Accept? <==>
              Strip(line) != [] && c.loads(line).Some? && c.loads(line).value.JObj?
              && HasBody(c.loads(line).value.fields) && Consistent(c, c.loads(line).value.fields, prev)
    ensures CheckLine(c, line, prev).Accept? ==>
              c.loads(line).value.fields["hash"] == JStr(CheckLine(c, line, prev).hash)
  {
  }

  /** The outcome of replaying lines: all accepted (with the last hash), a
      mismatch, or an exception. */
  datatype Walk = Done(tip: string) | Mismatch | Crashed

  /** Replaying lines from expected hash `prev`. */
  function Replay(c: Codec, lines: seq<string>, prev: string): Walk
    decreases |lines|
  {
    if lines == [] then Done(prev)
    else match CheckLine(c, lines[0], prev)
      case Skip => Replay(c, lines[1..], prev)
      case Accept(h) => Replay(c, lines[1..], h)
      case Reject => Mismatch
      case Raise => Crashed
  }

  /** `verify_chain()`: True (Intact), False (Broken), or an exception escaping it. */
  datatype Verdict = Intact | Broken | Raises

  /** Replaying only blank lines accepts and leaves the expected hash as it is. */
  lemma {:induction false} BlankLinesReplay(c: Codec, lines: seq<string>, prev: string)
    ensures (forall l :: l in lines ==> Strip(l) == []) ==> Replay(c, lines, prev) == Done(prev)
  {
    if lines != [] && forall l :: l in lines ==> Strip(l) == [] {
      assert lines[0] in lines;
      assert forall l :: l in lines[1..] ==> l in lines;
      BlankLinesReplay(c, lines[1..], prev);
    }
  }

  /** `verify_chain()`. An absent file, an empty file and a file of blank
      lines are intact. */
  function VerifyFile(c: Codec, present: bool, f: string): (v: Verdict)
    ensures !present || f == [] ==> v == Intact
    ensures (forall l :: l in SplitLines(f) ==> Strip(l) == []) ==> v == Intact
  {
    BlankLinesReplay(c, SplitLines(f), Genesis);
    if !present then Intact
    else match Replay(c, SplitLines(f), Genesis)
      case Done(_) => Intact
      case Mismatch => Broken
      case Crashed => Raises
  }

  /** A line `append_entry` wrote is accepted by `verify_chain` exactly when
      its record is sealed and linked to the expected hash. */
  lemma CheckWrittenLine(c: Codec, r: Record, p: string)
    requires WellBehaved(c)
    ensures CheckLine(c, Line(c, r), p)
         == if IsSealed(c, r) && r.prevHash == JStr(p) then Accept(r.hash) else Reject
  {
    var j := ToJson(r);
    assert c.loads(c.dumps(j) + ['\n']) == Some(j);
    StripNewline(c.dumps(j));
    var m := j.fields;
    assert Body(m["ts"], m["prev_hash"], m["payload"]) == Body(JNum(r.ts), r.prevHash, r.payload);
  }

  /** `verify_chain` skips blank lines: removing one changes nothing. */
  lemma {:induction false} BlankLineSkipped(c: Codec, before: seq<string>, blank: string, after: seq<string>, p: string)
    requires Strip(blank) == []
    ensures Replay(c, before + [blank] + after, p) == Replay(c, before + after, p)
    decreases |before|
  {
    if before == [] {
      assert before + [blank] + after == [blank] + after;
      assert ([blank] + after)[1..] == after;
      assert before + after == after;
    } else {
      assert (before + [blank] + after)[0] == before[0];
      assert (before + [blank] + after)[1..] == before[1..] + [blank] + after;
      assert (before + after)[0] == before[0];
      assert (before + after)[1..] == before[1..] + after;
      var step := CheckLine(c, before[0], p);
      if step.Skip? {
        BlankLineSkipped(c, before[1..], blank, after, p);
      } else if step.Accept? {
        BlankLineSkipped(c, before[1..], blank, after, step.hash);
      }
    }
  }

  // ---------------------------------------------------------------------------
  // Honest ledgers: what a run of appends leaves in the file

  /** Records each sealed and each linked to its predecessor (the first to `prev`). */
  ghost predicate Linked(c: Codec, rs: seq<Record>, prev: string)
    decreases |rs|
  {
    rs == [] || (rs[0].prevHash == JStr(prev) && IsSealed(c, rs[0]) && Linked(c, rs[1..], rs[0].hash))
  }

  /** The hash the next record must link to. */
  function Tip(rs: seq<Record>, prev: string): string {
    if rs == [] then prev else rs[|rs| - 1].hash
  }

  function Jsons(rs: seq<Record>): (js: seq<Json>)
    ensures |js| == |rs| && forall i :: 0 <= i < |rs| ==> js[i] == ToJson(rs[i])
  {
    seq(|rs|, i requires 0 <= i < |rs| => ToJson(rs[i]))
  }

  /** A file holding one compact JSON line per value. */
  function Render(c: Codec, js: seq<Json>): string {
    if js == [] then [] else c.dumps(js[0]) + ['\n'] + Render(c, js[1..])
  }

  function RenderedLines(c: Codec, js: seq<Json>): (lines: seq<string>)
    ensures |lines| == |js| && forall i :: 0 <= i < |js| ==> lines[i] == c.dumps(js[i]) + ['\n']
  {
    seq(|js|, i requires 0 <= i < |js| => c.dumps(js[i]) + ['\n'])
  }

  lemma {:induction false} SplitRender(c: Codec, js: seq<Json>)
    requires WellBehaved(c)
    ensures SplitLines(Render(c, js)) == RenderedLines(c, js)
  {
    if js != [] {
      SplitOneLine(c.dumps(js[0]), Render(c, js[1..]));
      SplitRender(c, js[1..]);
      assert RenderedLines(c, js) == [c.dumps(js[0]) + ['\n']] + RenderedLines(c, js[1..]);
    }
  }

  lemma {:induction false} RenderSnoc(c: Codec, js: seq<Json>, j: Json)
    ensures Render(c, js + [j]) == Render(c, js) + (c.dumps(j) + ['\n'])
  {
    if js == [] {
      assert js + [j] == [j];
      assert [j][1..] == [];
    } else {
      assert (js + [j])[0] == js[0];
      assert (js + [j])[1..] == js[1..] + [j];
      RenderSnoc(c, js[1..], j);
    }
  }

  lemma {:induction false} RenderShape(c: Codec, js: seq<Json>)
    requires WellBehaved(c)
    ensures Render(c, js) == [] || (|Render(c, js)| >= 2 && Render(c, js)[|Render(c, js)| - 1] == '\n')
  {
    if js != [] {
      assert c.dumps(js[0]) != [];
      RenderShape(c, js[1..]);
    }
  }

  /** Replaying the lines of linked records accepts every one of them. */
  lemma {:induction false} ReplayLinked(c: Codec, rs: seq<Record>, p: string)
    requires WellBehaved(c) && Linked(c, rs, p)
    ensures Replay(c, RenderedLines(c, Jsons(rs)), p) == Done(Tip(rs, p))
  {
    if rs != [] {
      var lines := RenderedLines(c, Jsons(rs));
      assert lines[0] == Line(c, rs[0]);
      CheckWrittenLine(c, rs[0], p);
      assert lines[1..] == RenderedLines(c, Jsons(rs[1..]));
      ReplayLinked(c, rs[1..], rs[0].hash);
    }
  }

  /** The records a run of appends creates, each linked to the one before. */
  function Chain(c: Codec, ops: seq<Op>): (rs: seq<Record>)
    ensures |rs| == |ops|
  {
    if ops == [] then []
    else
      var rs := Chain(c, ops[..|ops| - 1]);
      var op := ops[|ops| - 1];
      rs + [Seal(c, op.ts, JStr(Tip(rs, Genesis)), op.entry)]
  }

  /** The file after a run of appends, starting from an absent or empty file. */
  function Build(c: Codec, ops: seq<Op>): string {
    if ops == [] then [] else Appended(c, Build(c, ops[..|ops| - 1]), ops[|ops| - 1])
  }

  lemma {:induction false} LinkedSnoc(c: Codec, rs: seq<Record>, p: string, r: Record)
    requires Linked(c, rs, p) && IsSealed(c, r) && r.prevHash == JStr(Tip(rs, p))
    ensures Linked(c, rs + [r], p)
    decreases |rs|
  {
    if rs == [] {
      assert rs + [r] == [r];
      assert [r][1..] == [];
    } else {
      assert (rs + [r])[0] == rs[0];
      assert (rs + [r])[1..] == rs[1..] + [r];
      LinkedSnoc(c, rs[1..], rs[0].hash, r);
    }
  }

  /** Appending to a file of records links to the last of them. */
  lemma NextLinksToRendered(c: Codec, rs: seq<Record>, ts: Float, entry: Json)
    requires WellBehaved(c)
    ensures NewRecord(c, Render(c, Jsons(rs)), ts, entry) == Seal(c, ts, JStr(Tip(rs, Genesis)), entry)
  {
    if rs == [] {
      GenesisFirst(c, ts, entry);
    } else {
      var rs0 := rs[..|rs| - 1];
      var last := rs[|rs| - 1];
      assert rs == rs0 + [last];
      assert Jsons(rs) == Jsons(rs0) + [ToJson(last)];
      RenderSnoc(c, Jsons(rs0), ToJson(last));
      RenderShape(c, Jsons(rs0));
      NextLinksToLast(c, Render(c, Jsons(rs0)), last, ts, entry);
    }
  }

  /** Every append reads back the record written just before it, so a run of
      appends writes exactly the linked records of Chain. */
  lemma {:induction false} BuildIsChain(c: Codec, ops: seq<Op>)
    requires WellBehaved(c)
    ensures Build(c, ops) == Render(c, Jsons(Chain(c, ops)))
    ensures Linked(c, Chain(c, ops), Genesis)
  {
    if ops != [] {
      var init := ops[..|ops| - 1];
      var op := ops[|ops| - 1];
      BuildIsChain(c, init);
      var rs := Chain(c, init);
      var r := Seal(c, op.ts, JStr(Tip(rs, Genesis)), op.entry);
      NextLinksToRendered(c, rs, op.ts, op.entry);
      assert Chain(c, ops) == rs + [r];
      LinkedSnoc(c, rs, Genesis, r);
      assert Jsons(rs + [r]) == Jsons(rs) + [ToJson(r)];
      RenderSnoc(c, Jsons(rs), ToJson(r));
    }
  }

  /** Chain integrity: after any run of appends from an empty ledger,
      `verify_chain` returns True. */
  lemma AppendsVerify(c: Codec, ops: seq<Op>)
    requires WellBehaved(c)
    ensures VerifyFile(c, true, Build(c, ops)) == Intact
  {
    BuildIsChain(c, ops);
    SplitRender(c, Jsons(Chain(c, ops)));
    ReplayLinked(c, Chain(c, ops), Genesis);
  }

  // ---------------------------------------------------------------------------
  // Tamper evidence

  const RecordKeys: set<string> := {"ts", "prev_hash", "payload", "hash"}

  /** The stored record with one member overwritten. */
  function Tamper(j: Json, key: string, v: Json): Json
    requires j.JObj?
  {
    JObj(j.fields[key := v])
  }

  /** The line of a record with one member overwritten. */
  function TamperedLine(c: Codec, r: Record, key: string, v: Json): string {
    c.dumps(Tamper(ToJson(r), key, v)) + ['\n']
  }

  /** A sealed record with one member changed fails its own check. */
  lemma TamperedLineRejected(c: Codec, r: Record, p: string, key: string, v: Json)
    requires WellBehaved(c) && Injective(c)
    requires IsSealed(c, r) && key in RecordKeys && v != ToJson(r).fields[key]
    ensures CheckLine(c, TamperedLine(c, r, key, v), p) == Reject
  {
    var t := Tamper(ToJson(r), key, v);
    assert c.loads(c.dumps(t) + ['\n']) == Some(t);
    StripNewline(c.dumps(t));
    var m := t.fields;
    var body := Body(m["ts"], m["prev_hash"], m["payload"]);
    var orig := Body(JNum(r.ts), r.prevHash, r.payload);
    if key == "hash" {
      assert body == orig;
    } else {
      assert body.fields[key] == v && orig.fields[key] != v;
      assert c.canonical(body) != c.canonical(orig);
    }
  }

  /** One step of the replay: an accepted line moves the expected hash on, a rejected one stops it. */
  lemma ReplayStep(c: Codec, lines: seq<string>, p: string)
    requires lines != []
    ensures CheckLine(c, lines[0], p).Accept? ==>
              Replay(c, lines, p) == Replay(c, lines[1..], CheckLine(c, lines[0], p).hash)
    ensures CheckLine(c, lines[0], p) == Reject ==> Replay(c, lines, p) == Mismatch
  {
  }

  /** The hash record `k` of a linked run must point back to. */
  function PrevOf(rs: seq<Record>, p: string, k: nat): string
    requires k <= |rs|
  {
    if k == 0 then p else rs[k - 1].hash
  }

  lemma {:induction false} LinkedAt(c: Codec, rs: seq<Record>, p: string, k: nat)
    requires Linked(c, rs, p) && k < |rs|
    ensures IsSealed(c, rs[k]) && rs[k].prevHash == JStr(PrevOf(rs, p, k))
  {
    if k > 0 {
      LinkedAt(c, rs[1..], rs[0].hash, k - 1);
    }
  }

  /** The replay accepts lines up to `i` and stops at line `i` when that one is rejected. */
  lemma {:induction false} ReplayStopsAt(c: Codec, rs: seq<Record>, p: string, lines: seq<string>, i: nat)
    requires i < |rs| && i < |lines|
    requires forall k :: 0 <= k < i ==> CheckLine(c, lines[k], PrevOf(rs, p, k)) == Accept(rs[k].hash)
    requires CheckLine(c, lines[i], PrevOf(rs, p, i)) == Reject
    ensures Replay(c, lines, p) == Mismatch
  {
    ReplayStep(c, lines, p);
    if i > 0 {
      assert CheckLine(c, lines[0], p) == Accept(rs[0].hash);
      var rs', lines' := rs[1..], lines[1..];
      forall k | 0 <= k < i - 1
        ensures CheckLine(c, lines'[k], PrevOf(rs', rs[0].hash, k)) == Accept(rs'[k].hash)
      {
        assert lines'[k] == lines[k + 1] && rs'[k] == rs[k + 1];
        assert PrevOf(rs', rs[0].hash, k) == PrevOf(rs, p, k + 1);
      }
      assert lines'[i - 1] == lines[i] && PrevOf(rs', rs[0].hash, i - 1) == PrevOf(rs, p, i);
      ReplayStopsAt(c, rs', rs[0].hash, lines', i - 1);
    }
  }

  /** Replay stops with a mismatch at the first tampered line, whatever follows it. */
  lemma TamperReplay(c: Codec, rs: seq<Record>, p: string, lines: seq<string>, i: nat, key: string, v: Json)
    requires WellBehaved(c) && Injective(c) && Linked(c, rs, p)
    requires i < |rs| && i < |lines| && key in RecordKeys && v != ToJson(rs[i]).fields[key]
    requires forall k :: 0 <= k < i ==> lines[k] == Line(c, rs[k])
    requires lines[i] == TamperedLine(c, rs[i], key, v)
    ensures Replay(c, lines, p) == Mismatch
  {
    forall k | 0 <= k < i
      ensures CheckLine(c, lines[k], PrevOf(rs, p, k)) == Accept(rs[k].hash)
    {
      LinkedAt(c, rs, p, k);
      CheckWrittenLine(c, rs[k], PrevOf(rs, p, k));
    }
    LinkedAt(c, rs, p, i);
    TamperedLineRejected(c, rs[i], PrevOf(rs, p, i), key, v);
    ReplayStopsAt(c, rs, p, lines, i);
  }

  /** The lines of a rendering with record `i` tampered: the original lines before it, then the tampered one. */
  lemma TamperedRendering(c: Codec, rs: seq<Record>, i: nat, key: string, v: Json)
    requires i < |rs|
    ensures var lines := RenderedLines(c, Jsons(rs)[i := Tamper(ToJson(rs[i]), key, v)]);
              |lines| == |rs| && lines[i] == TamperedLine(c, rs[i], key, v)
              && forall k :: 0 <= k < i ==> lines[k] == Line(c, rs[k])
  {
  }

  /** Tamper detection: in a ledger written by appends, changing any one
      member of any one record makes `verify_chain` return False. */
  lemma TamperDetected(c: Codec, ops: seq<Op>, i: nat, key: string, v: Json)
    requires WellBehaved(c) && Injective(c)
    requires i < |ops| && key in RecordKeys && v != ToJson(Chain(c, ops)[i]).fields[key]
    ensures VerifyFile(c, true, Render(c, Jsons(Chain(c, ops))[i := Tamper(ToJson(Chain(c, ops)[i]), key, v)]))
         == Broken
  {
    var rs := Chain(c, ops);
    BuildIsChain(c, ops);
    var js := Jsons(rs)[i := Tamper(ToJson(rs[i]), key, v)];
    SplitRender(c, js);
    TamperedRendering(c, rs, i, key, v);
    TamperReplay(c, rs, Genesis, RenderedLines(c, js), i, key, v);
  }

  /** Respelling a float member of a payload as the int of the same value
      (`"lat":26.0` as `"lat":26`) changes the canonical text, so it is detected. */
  lemma IntSpellingDetected(c: Codec, ops: seq<Op>, i: nat, m: map<string, Json>, key: string)
    requires WellBehaved(c) && Injective(c)
    requires i < |ops| && Chain(c, ops)[i].payload == JObj(m)
    requires key in m && m[key] == JNum(Binary(13, 1))
    ensures VerifyFile(c, true, Render(c, Jsons(Chain(c, ops))[i := Tamper(ToJson(Chain(c, ops)[i]), "payload", JObj(m[key := JInt(26)]))]))
         == Broken
  {
    assert Value(m[key].n) == 26.0;
    assert JObj(m[key := JInt(26)]).fields[key] != JObj(m).fields[key];
    TamperDetected(c, ops, i, "payload", JObj(m[key := JInt(26)]));
  }

  function EventPayload(event: string, id: string): Json {
    JObj(map["event" := JStr(event), "id" := JStr(id)])
  }

  /** A PANIC event followed by a GEOFENCE event for the same tourist. */
  function PanicThenGeofenceOps(t1: Float, t2: Float): seq<Op> {
    [Op(t1, EventPayload("PANIC", "T1")), Op(t2, EventPayload("GEOFENCE", "T1"))]
  }

  lemma PanicThenGeofenceChain(c: Codec, t1: Float, t2: Float)
    ensures Chain(c, PanicThenGeofenceOps(t1, t2))
         == [Seal(c, t1, JStr(Genesis), EventPayload("PANIC", "T1")),
             Seal(c, t2, JStr(Seal(c, t1, JStr(Genesis), EventPayload("PANIC", "T1")).hash), EventPayload("GEOFENCE", "T1"))]
  {
    var ops := PanicThenGeofenceOps(t1, t2);
    assert ops[..1] == [ops[0]] && [ops[0]][..0] == [];
  }

  /** Two appends, PANIC then GEOFENCE: the first links to GENESIS, the second
      to the first, the file verifies, and turning the first payload's event
      into SAFE makes verification fail. */
  lemma PanicThenGeofence(c: Codec, t1: Float, t2: Float)
    requires WellBehaved(c) && Injective(c)
    ensures Chain(c, PanicThenGeofenceOps(t1, t2))[0].prevHash == JStr(Genesis)
    ensures (var rs := Chain(c, PanicThenGeofenceOps(t1, t2)); rs[1].prevHash == JStr(rs[0].hash))
    ensures VerifyFile(c, true, Build(c, PanicThenGeofenceOps(t1, t2))) == Intact
    ensures (var rs := Chain(c, PanicThenGeofenceOps(t1, t2));
             VerifyFile(c, true, Render(c, Jsons(rs)[0 := Tamper(ToJson(rs[0]), "payload", EventPayload("SAFE", "T1"))]))
             == Broken)
  {
    var ops := PanicThenGeofenceOps(t1, t2);
    var panic, safe := EventPayload("PANIC", "T1"), EventPayload("SAFE", "T1");
    PanicThenGeofenceChain(c, t1, t2);
    var r0 := Chain(c, ops)[0];
    assert r0.payload == panic;
    AppendsVerify(c, ops);
    assert safe.fields["event"] != panic.fields["event"];
    assert safe != ToJson(r0).fields["payload"];
    TamperDetected(c, ops, 0, "payload", safe);
  }

  // ---------------------------------------------------------------------------
  // The ledger file

  class LedgerFile {
    const codec: Codec
    var present: bool
    var data: string

    ghost predicate Valid()
      reads this
    {
      !present ==> data == []
    }

    /** A ledger whose file is absent, or present with the given contents. */
    constructor (codec: Codec, present: bool, data: string)
      requires !present ==> data == []
      ensures Valid() && this.codec == codec && this.present == present && this.data == data
    {
      this.codec := codec;
      this.present := present;
      this.data := data;
    }

    /** `append_entry`: one line is added at the end and nothing else changes. */
    method Append(ts: Float, entry: Json) returns (rec: Record)
      requires Valid()
      modifies this
      ensures Valid() && present
      ensures rec == NewRecord(codec, old(data), ts, entry)
      ensures data == old(data) + Line(codec, rec) && data == Appended(codec, old(data), Op(ts, entry))
      ensures IsSealed(codec, rec) && rec.ts == ts && rec.payload == entry
    {
      var lastLine := [];
      if present {
        lastLine := ReadLastLine(data);
      } else {
        assert ReadLineFrom(data, ScanStart(data)) == [];
      }
      var prev := PrevHash(codec, lastLine);
      rec := Record(ts, prev, entry, HashRecord(codec, Body(JNum(ts), prev, entry)));
      data := data + Line(codec, rec);
      present := true;
    }

    /** `verify_chain`: replays every line in order with the expected `prev`. */
    method Verify() returns (v: Verdict)
      ensures v == VerifyFile(codec, present, data)
      ensures !present ==> v == Intact
    {
      if !present {
        return Intact;
      }
      var lines := SplitLines(data);
      var prev := Genesis;
      var i := 0;
      while i < |lines|
        invariant 0 <= i <= |lines|
        invariant Replay(codec, lines, Genesis) == Replay(codec, lines[i..], prev)
      {
        assert lines[i..][1..] == lines[i + 1..];
        match CheckLine(codec, lines[i], prev) {
          case Skip =>
          case Accept(h) =>
            prev := h;
          case Reject =>
            return Broken;
          case Raise =>
            return Raises;
        }
        i := i + 1;
      }
      return Intact;
    }
  }
}
