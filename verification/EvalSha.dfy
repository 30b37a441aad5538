// EVALSHA with NOSCRIPT recovery, and the scratch buffer a call's arguments are
// copied into (src/v_db_script/src/v_db_script.c).
module EvalSha {
  import opened Wrappers
  import opened Text

  const SCRATCH_BYTES: nat := 1024
  const MAX_PARTS: nat := 12

  // --- one call, step by step ---

  // A reply: a value, NOSCRIPT, another error, or none that could be read.
  datatype Answer = Value(v: int) | NoScript | Failed | Unread

  datatype Phase = Waiting | Loading | Over

  // `evals` and `loads` are the commands sent, `calls` what the caller's callback
  // was called with, `puts` how often the pending object went back to its pool,
  // `runs` how often Redis ran the script's body.
  datatype Call = Call(phase: Phase, retried: bool, evals: nat, loads: nat, calls: seq<Answer>, puts: nat, runs: nat)
  {
    function Ended(a: Answer): Call { this.(phase := Over, calls := calls + [a], puts := puts + 1) }
  }

  // The reply to the EVALSHA (and whether Redis ran it, for a reply that does
  // not tell), or the reply to the SCRIPT LOAD; with each, what the pool and the
  // port answer to what it leads to.
  datatype Event =
    | Replied(a: Answer, ran: bool, pooled: bool, issued: bool)
    | Loaded(ok: bool, issued: bool)

  // Redis runs the body exactly when it has the script: a value comes from a
  // run, NOSCRIPT from none.
  predicate Honest(e: Event) {
    e.Replied? ==> (e.a.Value? ==> e.ran) && (e.a.NoScript? ==> !e.ran)
  }

  predicate Happens(c: Call, e: Event) {
    Honest(e) && if e.Replied? then c.phase.Waiting? else c.phase.Loading?
  }

  // issue_evalsha: a command that cannot be sent ends the call at once.
  function Sent(c: Call, issued: bool): Call {
    if issued then c.(phase := Waiting, evals := c.evals + 1) else c.Ended(Unread)
  }

  function Step(c: Call, e: Event): Call {
    match e
    case Replied(a, ran, pooled, issued) =>
      var c1 := c.(runs := c.runs + if ran then 1 else 0);
      if a.NoScript? && !c.retried then
        var c2 := c1.(retried := true);
        if pooled && issued then c2.(phase := Loading, loads := c.loads + 1) else c2.Ended(Unread)
      else c1.Ended(a)
    case Loaded(ok, issued) => if ok then Sent(c, issued) else c.Ended(Unread)
  }

  function Begun(issued: bool): Call { Sent(Call(Waiting, false, 0, 0, [], 0, 0), issued) }

  predicate Runs(c: Call, es: seq<Event>)
    decreases |es|
  {
    es == [] || (Happens(c, es[0]) && Runs(Step(c, es[0]), es[1..]))
  }

  function RunAll(c: Call, es: seq<Event>): Call
    decreases |es|
  {
    if es == [] then c else RunAll(Step(c, es[0]), es[1..])
  }

  // --- what every call keeps ---

  predicate Kept(c: Call) {
    && |c.calls| == c.puts == (if c.phase.Over? then 1 else 0)
    && c.evals <= (if c.retried && !c.phase.Loading? then 2 else 1)
    && (c.phase.Waiting? ==> c.evals == if c.retried then 2 else 1)
    && c.loads <= (if c.retried then 1 else 0)
    && (c.retried && !c.phase.Over? ==> c.loads == 1)
    && c.runs <= 1
    && (!c.phase.Over? ==> c.runs == 0)
    && (c.phase.Loading? ==> c.retried && c.evals == 1)
    && (c.phase.Over? ==>
          && (c.calls[0].Value? ==> c.runs == 1)
          && (c.calls[0].NoScript? ==> c.runs == 0 && c.evals == 2 && c.loads == 1))
  }

  lemma StepKeeps(c: Call, e: Event)
    requires Kept(c) && Happens(c, e)
    ensures Kept(Step(c, e))
  {
  }

  // What is still to come: at most a reply, a load and another reply.
  function Left(c: Call): nat {
    if c.phase.Over? then 0 else if c.phase.Loading? then 2 else if c.retried then 1 else 3
  }

  lemma {:induction false} RunKeeps(c: Call, es: seq<Event>)
    requires Kept(c) && Runs(c, es)
    ensures Kept(RunAll(c, es)) && Left(RunAll(c, es)) + |es| <= Left(c)
    decreases |es|
  {
    if es != [] {
      StepKeeps(c, es[0]);
      RunKeeps(Step(c, es[0]), es[1..]);
    }
  }

  // For every call that v_db_evalsha accepts: at most one callback and one
  // return of the pending object, together; the script's body runs at most once,
  // exactly once when the caller gets a value and never when it gets NOSCRIPT;
  // at most two EVALSHA and one SCRIPT LOAD go out; at most three replies end
  // it, and it ends with its one callback.
  lemma EvalshaRefinesEval(issued: bool, es: seq<Event>)
    requires Runs(Begun(issued), es)
    ensures var c := RunAll(Begun(issued), es);
            && |c.calls| == c.puts <= 1
            && c.runs <= 1 && c.evals <= 2 && c.loads <= 1
            && (c.calls != [] && c.calls[0].Value? ==> c.runs == 1)
            && (c.calls != [] && c.calls[0].NoScript? ==> c.runs == 0)
            && |es| <= 3
            && (|es| == 3 || !issued ==> c.phase.Over?)
            && (c.phase.Over? <==> |c.calls| == 1)
  {
    RunKeeps(Begun(issued), es);
  }

  // --- what the caller hears ---

  function AnswerIn(e: Event): Answer { if e.Replied? then e.a else Unread }

  // The first reply is NOSCRIPT, and the reload it asks for goes out.
  predicate Reloads(es: seq<Event>) {
    |es| > 0 && AnswerIn(es[0]).NoScript? && es[0].pooled && es[0].issued
  }

  // The reload succeeds too, and the second EVALSHA goes out.
  predicate Resends(es: seq<Event>) {
    Reloads(es) && |es| > 1 && es[1].Loaded? && es[1].ok && es[1].issued
  }

  // Exactly what is sent and what the caller hears, whatever the replies: a first
  // NOSCRIPT is no answer but starts the recovery, the caller gets the reply that
  // comes after it, and Unread where the recovery cannot go on.
  lemma OutcomeExactly(es: seq<Event>)
    requires Runs(Begun(true), es)
    ensures var c := RunAll(Begun(true), es);
            && c.loads == (if Reloads(es) then 1 else 0)
            && c.evals == (if Resends(es) then 2 else 1)
            && c.calls == (
                 if es == [] then []
                 else if !Reloads(es) then [if AnswerIn(es[0]).NoScript? then Unread else AnswerIn(es[0])]
                 else if |es| == 1 then []
                 else if !Resends(es) then [Unread]
                 else if |es| == 2 then []
                 else [AnswerIn(es[2])])
  {
    if es != [] && Reloads(es) {
      AfterReload(Step(Begun(true), es[0]), es);
    } else if es != [] {
      OverIsOver(Step(Begun(true), es[0]), es[1..]);
    }
  }

  lemma OverIsOver(c: Call, es: seq<Event>)
    requires c.phase.Over? && Runs(c, es)
    ensures es == []
  {
  }

  lemma AfterReload(c: Call, es: seq<Event>)
    requires |es| > 0 && c.phase.Loading? && c.retried && Runs(c, es[1..])
    ensures var c' := RunAll(c, es[1..]);
            && c'.loads == c.loads
            && if |es| == 1 then c' == c
               else if !(es[1].Loaded? && es[1].ok && es[1].issued) then
                 c'.calls == c.calls + [Unread] && c'.evals == c.evals
               else
                 c'.evals == c.evals + 1
                 && if |es| == 2 then c'.calls == c.calls else c'.calls == c.calls + [AnswerIn(es[2])]
  {
    if |es| > 1 {
      var c1 := Step(c, es[1]);
      assert es[1..][1..] == es[2..];
      if c1.phase.Over? {
        OverIsOver(c1, es[2..]);
      } else {
        LastReply(c1, es[2..]);
      }
    }
  }

  lemma LastReply(c: Call, es: seq<Event>)
    requires c.phase.Waiting? && c.retried && Runs(c, es)
    ensures var c' := RunAll(c, es);
            c'.loads == c.loads && c'.evals == c.evals
            && c'.calls == if es == [] then c.calls else c.calls + [AnswerIn(es[0])]
  {
    if es != [] {
      OverIsOver(Step(c, es[0]), es[1..]);
    }
  }

  // NOSCRIPT reaches the caller exactly when the script was missing twice, before
  // the load that recovers from it and after.
  lemma NoScriptMeansTwice(issued: bool, es: seq<Event>)
    requires Runs(Begun(issued), es)
    ensures var c := RunAll(Begun(issued), es);
            && (c.calls == [NoScript] <==> issued && Resends(es) && |es| == 3 && AnswerIn(es[2]).NoScript?)
            && (c.calls == [NoScript] ==> c.evals == 2 && c.loads == 1 && c.runs == 0)
  {
    RunKeeps(Begun(issued), es);
    if issued {
      OutcomeExactly(es);
    }
  }

  // A script that Redis lost is loaded and run, and the caller gets its value as
  // if it had been there.
  lemma RecoverySucceeds(v: int, p: bool, i: bool)
    ensures var es := [Replied(NoScript, false, true, true), Loaded(true, true), Replied(Value(v), true, p, i)];
            && Runs(Begun(true), es)
            && var c := RunAll(Begun(true), es);
               c.phase.Over? && c.calls == [Value(v)] && c.runs == 1 && c.evals == 2 && c.loads == 1
  {
    var es := [Replied(NoScript, false, true, true), Loaded(true, true), Replied(Value(v), true, p, i)];
    var c1 := Step(Begun(true), es[0]);
    var c2 := Step(c1, es[1]);
    assert Runs(Step(c2, es[2]), es[1..][1..][1..]);
    assert Runs(c2, es[1..][1..]);
    assert Runs(c1, es[1..]);
    OutcomeExactly(es);
    RunKeeps(Begun(true), es);
  }

  // Somebody always has the ball: a call that is not over waits for one reply.
  lemma NeverStuck(c: Call)
    requires Kept(c) && !c.phase.Over?
    ensures exists e :: Happens(c, e)
    ensures forall e :: Happens(c, e) ==> Left(Step(c, e)) < Left(c)
  {
    assert Happens(c, if c.phase.Waiting? then Replied(Failed, false, true, true) else Loaded(false, true));
  }

  // --- the argument texts ---

  function Total(ts: seq<string>): nat {
    if ts == [] then 0 else Total(ts[..|ts| - 1]) + |ts[|ts| - 1]|
  }

  lemma {:induction false} TotalGrows(ts: seq<string>, n: nat)
    requires n <= |ts|
    ensures Total(ts[..n]) <= Total(ts)
    decreases |ts| - n
  {
    if n == |ts| {
      assert ts[..n] == ts;
    } else {
      assert ts[..n + 1][..n] == ts[..n];
      TotalGrows(ts, n + 1);
    }
  }

  function Concat(ts: seq<string>): string {
    if ts == [] then [] else Concat(ts[..|ts| - 1]) + ts[|ts| - 1]
  }

  // A part of the command: a region of the scratch buffer.
  datatype Region = Region(off: nat, len: nat)

  // Texts laid out one after the other from the start of the buffer.
  function Layout(ts: seq<string>): seq<Region> {
    if ts == [] then []
    else
      var n := |ts| - 1;
      Layout(ts[..n]) + [Region(Total(ts[..n]), |ts[n]|)]
  }

  predicate Inside(rs: seq<Region>, len: nat) { forall i :: 0 <= i < |rs| ==> rs[i].off + rs[i].len <= len }

  // What the regions of a buffer hold.
  function Slices(buf: string, rs: seq<Region>): seq<string>
    requires Inside(rs, |buf|)
  {
    seq(|rs|, i requires 0 <= i < |rs| => buf[rs[i].off..rs[i].off + rs[i].len])
  }

  lemma {:induction false} LayoutHolds(buf: string, ts: seq<string>)
    requires Total(ts) <= |buf| && buf[..Total(ts)] == Concat(ts)
    ensures |Layout(ts)| == |ts| && Inside(Layout(ts), Total(ts)) && Slices(buf, Layout(ts)) == ts
  {
    if ts != [] {
      var n := |ts| - 1;
      ConcatLength(ts[..n]);
      var used := Total(ts[..n]);
      assert buf[..used] == buf[..Total(ts)][..used] == Concat(ts[..n]);
      LayoutHolds(buf, ts[..n]);
      assert buf[used..used + |ts[n]|] == buf[..Total(ts)][used..] == ts[n];
      hide Concat;
      assert Slices(buf, Layout(ts)) == Slices(buf, Layout(ts[..n])) + [ts[n]];
    }
  }

  lemma {:induction false} ConcatLength(ts: seq<string>)
    ensures |Concat(ts)| == Total(ts)
  {
    if ts != [] {
      ConcatLength(ts[..|ts| - 1]);
    }
  }

  lemma {:induction false} LayoutAt(ts: seq<string>, i: nat)
    requires i < |ts|
    ensures |Layout(ts)| == |ts| && Layout(ts)[i] == Region(Total(ts[..i]), |ts[i]|)
  {
    var n := |ts| - 1;
    if i < n {
      LayoutAt(ts[..n], i);
      assert ts[..n][..i] == ts[..i];
    } else if n > 0 {
      LayoutAt(ts[..n], 0);
    }
  }

  // No two regions overlap, and none leaves the buffer.
  lemma RegionsAreApart(ts: seq<string>, i: nat, j: nat)
    requires i < j < |ts|
    ensures |Layout(ts)| == |ts|
    ensures Layout(ts)[i].off + Layout(ts)[i].len <= Layout(ts)[j].off
    ensures Layout(ts)[j].off + Layout(ts)[j].len <= Total(ts)
  {
    LayoutAt(ts, i);
    LayoutAt(ts, j);
    assert ts[..i + 1][..i] == ts[..i];
    assert ts[..j][..i + 1] == ts[..i + 1];
    TotalGrows(ts[..j], i + 1);
    assert ts[..j + 1][..j] == ts[..j];
    TotalGrows(ts, j + 1);
  }

  // The texts copied: the number of keys, the keys, the arguments.
  function Copied(keys: seq<string>, argv: seq<string>): seq<string> { [Decimal(|keys|)] + keys + argv }

  // g_sha: the SHA cached for each shard and script, shared by all calls. Loads
  // replace entries and never remove one.
  class ShaTable {
    var known: map<(nat, nat), string>

    constructor ()
      ensures known == map[]
    {
      known := map[];
    }

    // load_reply_cb of a plain load, or of another call's recovery; whatever call
    // is under way keeps its arguments.
    method Load(script: (nat, nat), sha: string, ghost p: Pending?)
      requires p != null ==> p.table == this && p.Tracks()
      modifies this
      ensures known == old(known)[script := sha]
      ensures p != null ==> p.Tracks() && p.call == old(p.call) && p.sent == old(p.sent)
      ensures p != null ==> p.Command()[2..] == old(p.Command())[2..]
    {
      known := known[script := sha];
      assert p != null ==> p.Command()[2..] == old(p.Command())[2..];
    }
  }

  // The pending object of one call. `call` is what has happened to it, `sent`
  // the commands that went out.
  class Pending {
    const scratch: array<char>
    const table: ShaTable
    const script: (nat, nat)
    var used: nat
    var regions: seq<Region>
    var retried: bool
    ghost var call: Call
    ghost var sent: seq<seq<string>>

    constructor (table: ShaTable, script: (nat, nat))
      ensures fresh(this) && fresh(scratch) && Laid([]) && !retried && sent == []
      ensures this.table == table && this.script == script
    {
      scratch := new char[SCRATCH_BYTES];
      used, regions, retried := 0, [], false;
      this.table, this.script := table, script;
      call, sent := Call(Waiting, false, 0, 0, [], 0, 0), [];
    }

    // scratch_copy: the next free bytes, or nothing when they do not suffice.
    method ScratchCopy(src: string) returns (off: Option<nat>)
      requires used <= SCRATCH_BYTES == scratch.Length
      modifies this`used, scratch
      ensures off.Some? <==> old(used) + |src| <= SCRATCH_BYTES
      ensures off.Some? ==> off.value == old(used) && used == old(used) + |src|
                            && scratch[..used] == old(scratch[..used]) + src
      ensures off.None? ==> used == old(used)
    {
      if used + |src| > SCRATCH_BYTES { return None; }
      forall i | 0 <= i < |src| { scratch[used + i] := src[i]; }
      off := Some(used);
      used := used + |src|;
      assert scratch[..old(used)] == old(scratch[..used]);
    }

    // These texts are in place, one after the other.
    ghost predicate Laid(ts: seq<string>)
      reads this, scratch
    {
      && used == Total(ts) <= SCRATCH_BYTES == scratch.Length
      && regions == Layout(ts) && scratch[..used] == Concat(ts)
    }

    // One more text: copied, and its region noted.
    method AddPart(ghost ts: seq<string>, src: string) returns (ok: bool)
      requires Laid(ts)
      modifies this`used, this`regions, scratch
      ensures ok <==> Total(ts + [src]) <= SCRATCH_BYTES
      ensures ok ==> Laid(ts + [src])
    {
      assert (ts + [src])[..|ts|] == ts;
      var off := ScratchCopy(src);
      if off.None? { return false; }
      regions := regions + [Region(off.value, |src|)];
      return true;
    }

    // One argument loop: every text is copied out of the caller's memory.
    method AddAll(ghost ts: seq<string>, more: seq<string>) returns (ok: bool)
      requires Laid(ts)
      modifies this`used, this`regions, scratch
      ensures ok <==> Total(ts + more) <= SCRATCH_BYTES
      ensures ok ==> Laid(ts + more)
    {
      hide Total, Concat, Layout;
      ok := true;
      var i := 0;
      assert ts + more[..0] == ts;
      TotalGrows(ts + more, |ts|);
      assert (ts + more)[..|ts|] == ts;
      while ok && i < |more|
        invariant 0 <= i <= |more|
        invariant ok ==> Laid(ts + more[..i])
        invariant !ok ==> Total(ts + more) > SCRATCH_BYTES
      {
        assert ts + more[..i] + [more[i]] == ts + more[..i + 1] == (ts + more)[..|ts| + i + 1];
        TotalGrows(ts + more, |ts| + i + 1);
        ok := AddPart(ts + more[..i], more[i]);
        i := i + 1;
      }
      assert more[..|more|] == more;
    }

    // The number of keys, the keys and the arguments, each in its own region. It
    // fails exactly when they do not fit together.
    method Build(keys: seq<string>, argv: seq<string>) returns (ok: bool)
      requires Laid([])
      modifies this`used, this`regions, scratch
      ensures ok <==> Total(Copied(keys, argv)) <= SCRATCH_BYTES
      ensures ok ==> Laid(Copied(keys, argv))
    {
      hide Total, Concat, Layout;
      ghost var ts := Copied(keys, argv);
      ghost var n := [Decimal(|keys|)];
      assert ts[..1] == n && ts[..1 + |keys|] == n + keys && [] + n == n;
      TotalGrows(ts, 1);
      TotalGrows(ts, 1 + |keys|);
      ok := AddPart([], Decimal(|keys|));
      if !ok { return; }
      ok := AddAll(n, keys);
      if !ok { return; }
      ok := AddAll(n + keys, argv);
    }

    // The command as it would be sent now: the SHA is the table's entry.
    function Command(): seq<string>
      requires Inside(regions, scratch.Length) && script in table.known
      reads this, scratch, table
    {
      ["EVALSHA", table.known[script]] + Slices(scratch[..], regions)
    }

    // --- the callbacks of one call ---

    ghost predicate Tracks() reads this, scratch, table {
      && Inside(regions, scratch.Length) && script in table.known
      && retried == call.retried && Kept(call) && |sent| == call.evals
      && (forall c :: c in sent ==> |c| > 2 && c[0] == "EVALSHA" && c[2..] == Command()[2..])
    }

    // issue_evalsha
    method Issue(issued: bool)
      requires Inside(regions, scratch.Length) && script in table.known
      modifies this`call, this`sent
      ensures Command() == old(Command())
      ensures call == Sent(old(call), issued)
      ensures sent == if issued then old(sent) + [Command()] else old(sent)
    {
      if issued {
        sent := sent + [Command()];
      }
      call := Sent(call, issued);
    }

    // evalsha_reply_cb: the first NOSCRIPT loads the script and waits; anything
    // else goes to the caller.
    method OnReply(a: Answer, ghost ran: bool, pooled: bool, issued: bool) returns (loads: bool)
      requires Tracks() && Happens(call, Replied(a, ran, pooled, issued))
      modifies this`retried, this`call
      ensures Tracks() && call == Step(old(call), Replied(a, ran, pooled, issued))
      ensures loads <==> a.NoScript? && !old(retried) && pooled && issued
      ensures loads <==> call.phase.Loading?
    {
      loads := false;
      StepKeeps(call, Replied(a, ran, pooled, issued));
      call := Step(call, Replied(a, ran, pooled, issued));
      if a.NoScript? && !retried {
        retried := true;
        loads := pooled && issued;
      }
    }

    // load_reply_cb: cache the new SHA and send again with it.
    method OnLoaded(loaded: Option<string>, issued: bool)
      requires Tracks() && Happens(call, Loaded(loaded.Some?, issued))
      modifies table, this`call, this`sent
      ensures table.known == if loaded.Some? then old(table.known)[script := loaded.value] else old(table.known)
      ensures Tracks() && call == Step(old(call), Loaded(loaded.Some?, issued))
      ensures loaded.Some? && issued ==>
                |sent| == 2 && sent[0] == old(sent)[0] && sent[1][0] == sent[0][0] && sent[1][1] == loaded.value
                && sent[1][2..] == sent[0][2..]
    {
      StepKeeps(call, Loaded(loaded.Some?, issued));
      if loaded.Some? {
        ghost var was := Command();
        table.known := table.known[script := loaded.value];
        assert Command()[2..] == was[2..];
        assert |old(sent)| == 1 && old(sent)[0] in old(sent);
        Issue(issued);
      } else {
        call := call.Ended(Unread);
      }
    }
  }

  // v_db_evalsha: the checks, the copy, the first command. ERR means nothing was
  // started and no callback will come.
  method Evalsha(valid: bool, table: ShaTable, script: (nat, nat), pooled: bool, keys: seq<string>,
                 argv: seq<string>, issued: bool)
    returns (p: Pending?)
    ensures p != null <==>
            && valid && 3 + |keys| + |argv| <= MAX_PARTS && script in table.known && pooled
            && Total(Copied(keys, argv)) <= SCRATCH_BYTES
    ensures p != null ==>
              && fresh(p) && p.Tracks() && p.call == Begun(issued)
              && (issued ==> p.sent == [["EVALSHA", table.known[script], Decimal(|keys|)] + keys + argv])
  {
    hide Total, Concat, Layout, Slices, Decimal;
    p := null;
    if !valid || 3 + |keys| + |argv| > MAX_PARTS || script !in table.known || !pooled { return; }
    var q := new Pending(table, script);
    var ok := q.Build(keys, argv);
    if !ok { return; }
    CommandIs(q, Copied(keys, argv));
    q.call := Call(Waiting, false, 0, 0, [], 0, 0);
    q.Issue(issued);
    p := q;
    assert ["EVALSHA", table.known[script]] + Copied(keys, argv)
        == ["EVALSHA", table.known[script], Decimal(|keys|)] + keys + argv;
  }

  lemma CommandIs(q: Pending, ts: seq<string>)
    requires q.Laid(ts) && q.script in q.table.known
    ensures Inside(q.regions, q.scratch.Length)
    ensures q.Command() == ["EVALSHA", q.table.known[q.script]] + ts
  {
    assert q.scratch[..][..q.used] == q.scratch[..q.used];
    LayoutHolds(q.scratch[..], ts);
  }
}
