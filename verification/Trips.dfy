// How many round trips a transaction waits for, over any replies: every flow
// ends, within bounds that some replies reach.
module Trips {
  import opened Wrappers
  import opened Seid
  import opened Flow

  // Awaited requests to Redis, those of them that run a script by EVALSHA, and
  // awaited requests to the VDP.
  datatype Tally = Tally(redis: nat, evals: nat, vdp: nat)
  {
    function Plus(o: Tally): Tally { Tally(redis + o.redis, evals + o.evals, vdp + o.vdp) }

    predicate Within(o: Tally) { redis <= o.redis && evals <= o.evals && vdp <= o.vdp }

    // Under NOSCRIPT an EVALSHA costs SCRIPT LOAD and a second EVALSHA more.
    function Commands(): nat { redis + 2 * evals }
  }

  const NOTHING: Tally := Tally(0, 0, 0)

  // The trip a transaction is on.
  function Trip(cb: Cb): Tally {
    match cb
    case EstVdpCb | ModVdpCb | DelVdpCb => Tally(0, 0, 1)
    case EstWriteCb | ModWriteCb | ModUndoCb | DelDeleteCb => Tally(1, 1, 0)
    case _ => Tally(1, 0, 0)
  }

  // What is left at most, this trip included: stages still to come, and for
  // every CAS attempt left a read, a write and, for a deletion, a VDP delete.
  function Budget(t: Txn): Tally
    requires t.casRetry < CAS_MAX_RETRY
  {
    var tries := CAS_MAX_RETRY - t.casRetry;
    match t.cb
    case EstLookupCb => Tally(3, 1, 1)
    case EstWriteCb => Tally(2, 1, 1)
    case EstVdpCb => Tally(1, 0, 1)
    case EstConfirmCb => Tally(1, 0, 0)
    case ModLookupCb => Tally(2 * tries + 2, tries + 1, 1)
    case ModReadCb => Tally(2 * tries + 1, tries + 1, 1)
    case ModWriteCb => Tally(2 * tries, tries + 1, 1)
    case ModVdpCb => Tally(1, 1, 1)
    case ModUndoCb => Tally(1, 1, 0)
    case DelLookupCb => Tally(2 * tries + 1, tries, tries)
    case DelReadCb => Tally(2 * tries, tries, tries)
    case DelVdpCb => Tally(2 * tries - 1, tries, tries)
    case DelDeleteCb => Tally(2 * tries - 1, tries, tries - 1)
  }

  // One reply: handing on costs the trip just made.
  ghost predicate Pays(t: Txn, out: Out)
    requires t.casRetry < CAS_MAX_RETRY
  {
    && Trip(t.cb).Within(Budget(t))
    && (out.fate.Await? ==>
          out.fate.t.casRetry < CAS_MAX_RETRY && Trip(t.cb).Plus(Budget(out.fate.t)).Within(Budget(t)))
  }

  lemma StepCosts(t: Txn, r: Reply, env: Env)
    requires Wf(t) && Fits(t.cb, r)
    ensures Pays(t, Callback(t, r, env))
  {
    hide Pays, Callback, Wf;
    match t.cb
    case ModLookupCb | ModReadCb | ModWriteCb | ModVdpCb | ModUndoCb => ModCosts(t, r, env);
    case DelLookupCb | DelReadCb | DelVdpCb | DelDeleteCb => DelCosts(t, r, env);
    case _ => EstCosts(t, r, env);
  }

  lemma EstCosts(t: Txn, r: Reply, env: Env)
    requires Wf(t) && Fits(t.cb, r)
    requires IsEst(t.cb)
    ensures Pays(t, Callback(t, r, env))
  {
    hide Continues, EstLookup, EstWrite, EstVdp, EstConfirm;
    match t.cb
    case EstLookupCb => EstLookupGoes(t, r, env);
    case EstWriteCb => EstWriteGoes(t, r, env);
    case EstVdpCb => EstVdpGoes(t, r, env);
    case EstConfirmCb => EstConfirmGoes(t, r, env);
  }

  lemma EstLookupGoes(t: Txn, r: Reply, env: Env)
    requires Wf(t) && t.cb.EstLookupCb? && Fits(t.cb, r)
    ensures var out := EstLookup(t, r, env);
            out.fate.Await? ==> out.fate.t.cb.EstWriteCb? && out.fate.t.casRetry == t.casRetry
  {
    hide Continues;
  }

  lemma EstWriteGoes(t: Txn, r: Reply, env: Env)
    requires Wf(t) && t.cb.EstWriteCb? && Fits(t.cb, r)
    ensures var out := EstWrite(t, r, env);
            out.fate.Await? ==> out.fate.t.cb.EstVdpCb? && out.fate.t.casRetry == t.casRetry
  {
    hide Continues;
  }

  lemma EstVdpGoes(t: Txn, r: Reply, env: Env)
    requires Wf(t) && t.cb.EstVdpCb? && Fits(t.cb, r)
    ensures var out := EstVdp(t, r, env);
            out.fate.Await? ==> out.fate.t.cb.EstConfirmCb? && out.fate.t.casRetry == t.casRetry
  {
    hide Continues;
  }

  lemma EstConfirmGoes(t: Txn, r: Reply, env: Env)
    requires Wf(t) && t.cb.EstConfirmCb? && Fits(t.cb, r)
    ensures EstConfirm(t, r, env).fate.Gone?
  {
    hide Continues;
  }

  lemma ModCosts(t: Txn, r: Reply, env: Env)
    requires Wf(t) && Fits(t.cb, r)
    requires IsMod(t.cb)
    ensures Pays(t, Callback(t, r, env))
  {
  }

  lemma DelCosts(t: Txn, r: Reply, env: Env)
    requires Wf(t) && Fits(t.cb, r)
    requires IsDel(t.cb)
    ensures Pays(t, Callback(t, r, env))
  {
  }

  // The replies a transaction gets, one after the other, until it ends or they
  // run out.
  type Script = seq<(Reply, Env)>

  datatype Played = Played(trips: Tally, ended: bool)

  function Play(t: Txn, script: Script): Played
    requires Wf(t)
    decreases |script|
  {
    if script == [] || !Fits(t.cb, script[0].0) then Played(NOTHING, false)
    else
      var out := Callback(t, script[0].0, script[0].1);
      if out.fate.Gone? then Played(Trip(t.cb), true)
      else
        var rest := Play(out.fate.t, script[1..]);
        Played(Trip(t.cb).Plus(rest.trips), rest.ended)
  }

  // All of the script is replies the transaction was waiting for.
  predicate Fitting(t: Txn, script: Script)
    requires Wf(t)
    decreases |script|
  {
    script == [] ||
    (Fits(t.cb, script[0].0)
     && var out := Callback(t, script[0].0, script[0].1);
        out.fate.Gone? || Fitting(out.fate.t, script[1..]))
  }

  lemma {:induction false} PlayCosts(t: Txn, script: Script)
    requires Wf(t)
    ensures Play(t, script).trips.Within(Budget(t))
    ensures Fitting(t, script) && |script| >= Budget(t).redis + Budget(t).vdp ==> Play(t, script).ended
    decreases |script|
  {
    hide Callback, Budget, Fits, Wf;
    if script != [] && Fits(t.cb, script[0].0) {
      StepCosts(t, script[0].0, script[0].1);
      var out := Callback(t, script[0].0, script[0].1);
      if out.fate.Await? {
        PlayCosts(out.fate.t, script[1..]);
      }
    } else {
      BudgetIsPositive(t);
    }
  }

  lemma BudgetIsPositive(t: Txn)
    requires Wf(t)
    ensures Budget(t).redis + Budget(t).vdp > 0
  {
  }

  // What a request costs at most.
  function Bound(kind: Kind): Tally {
    match kind
    case Est => Tally(3, 1, 1)
    case Mod => Tally(8, 4, 1)
    case Del => Tally(7, 3, 3)
  }

  // Every flow ends, whatever the replies, within its bound: 5, 16 and 13 Redis
  // commands with all scripts missing, and 1, 1 and 3 VDP requests.
  lemma EveryFlowEnds(req: Req, env: Env, script: Script)
    requires Start(req, env).1.fate.Await?
    ensures var t := Start(req, env).1.fate.t;
            && Wf(t)
            && Play(t, script).trips.Within(Bound(req.kind))
            && Play(t, script).trips.Commands() <= (match req.kind case Est => 5 case Mod => 16 case Del => 13)
            && (Fitting(t, script) && |script| >= Bound(req.kind).redis + Bound(req.kind).vdp ==> Play(t, script).ended)
  {
    hide Play, Fitting, SeidValidate;
    PlayCosts(Start(req, env).1.fate.t, script);
  }

  // --- the bounds are reached ---

  // The ports answer well: ids, a block and every issue.
  const GOOD_ENV: Env := Env(true, 0, 1, 1, Some(0), true, true, true, true, true)

  // The same replies, whatever the request and the transaction's block.
  function Replies(rs: seq<Reply>): Script {
    if rs == [] then [] else [(rs[0], GOOD_ENV)] + Replies(rs[1..])
  }

  lemma PlayReply(t: Txn, r: Reply, rs: seq<Reply>)
    requires Wf(t) && Fits(t.cb, r)
    ensures var out := Callback(t, r, GOOD_ENV);
            Play(t, Replies([r] + rs)) ==
              if out.fate.Gone? then Played(Trip(t.cb), true)
              else
                var p := Play(out.fate.t, Replies(rs));
                Played(Trip(t.cb).Plus(p.trips), p.ended)
  {
  }

  // Where each callback hands on when the ports answer well.
  lemma EstGoes(t: Txn, r: Reply)
    requires Wf(t) && Fits(t.cb, r)
    ensures var out := Callback(t, r, GOOD_ENV);
            match t.cb
            case EstLookupCb => r.Miss? ==> GoesTo(out, EstWriteCb, t.casRetry)
            case EstWriteCb => r.CasOk? ==> GoesTo(out, EstVdpCb, t.casRetry)
            case EstVdpCb => r == Vdp(Accept) ==> GoesTo(out, EstConfirmCb, t.casRetry)
            case EstConfirmCb => out.fate.Gone?
            case _ => true
  {
  }

  predicate GoesTo(out: Out, cb: Cb, retry: nat) {
    out.fate.Await? && out.fate.t.cb == cb && out.fate.t.casRetry == retry
  }

  lemma ModGoes(t: Txn, r: Reply)
    requires Wf(t) && Fits(t.cb, r)
    ensures var out := Callback(t, r, GOOD_ENV);
            match t.cb
            case ModLookupCb => r.Miss? ==> GoesTo(out, ModReadCb, t.casRetry)
            case ModReadCb => r.Found? ==> GoesTo(out, ModWriteCb, t.casRetry)
            case ModWriteCb =>
              && (r.CasOk? ==> GoesTo(out, ModVdpCb, t.casRetry))
              && (r.CasConflict? && t.casRetry + 1 < CAS_MAX_RETRY ==> GoesTo(out, ModReadCb, t.casRetry + 1))
            case ModVdpCb => r == Vdp(Reject) ==> GoesTo(out, ModUndoCb, t.casRetry)
            case ModUndoCb => out.fate.Gone?
            case _ => true
  {
  }

  lemma DelGoes(t: Txn, r: Reply)
    requires Wf(t) && Fits(t.cb, r)
    ensures var out := Callback(t, r, GOOD_ENV);
            match t.cb
            case DelLookupCb => r.Miss? ==> GoesTo(out, DelReadCb, t.casRetry)
            case DelReadCb => r.Found? ==> GoesTo(out, DelVdpCb, t.casRetry)
            case DelVdpCb => r == Vdp(Accept) ==> GoesTo(out, DelDeleteCb, t.casRetry)
            case DelDeleteCb =>
              r.CasConflict? ==>
                if t.casRetry + 1 < CAS_MAX_RETRY then GoesTo(out, DelReadCb, t.casRetry + 1) else out.fate.Gone?
            case _ => true
  {
  }

  // An establishment that succeeds makes all its trips.
  const EST_LAST: seq<Reply> := [Vdp(Accept)] + ([Done] + [])
  const EST_WORST: seq<Reply> := [Miss] + ([CasOk(1)] + EST_LAST)

  lemma EstAccepted(t: Txn, rs: seq<Reply>) returns (u: Txn)
    requires Wf(t) && t.cb.EstVdpCb?
    ensures Wf(u) && u.cb.EstConfirmCb?
    ensures var p := Play(u, Replies(rs));
            Play(t, Replies([Vdp(Accept)] + rs)) == Played(Tally(0, 0, 1).Plus(p.trips), p.ended)
  {
    hide Callback, Play, Replies;
    EstGoes(t, Vdp(Accept));
    PlayReply(t, Vdp(Accept), rs);
    u := Callback(t, Vdp(Accept), GOOD_ENV).fate.t;
  }

  lemma EstLastTrips(t: Txn)
    requires Wf(t) && t.cb.EstVdpCb?
    ensures Play(t, Replies(EST_LAST)) == Played(Tally(1, 0, 1), true)
  {
    hide Callback;
    var t1 := EstAccepted(t, [Done] + []);
    EstGoes(t1, Done);
    PlayReply(t1, Done, []);
  }

  lemma EstReachesBound(t: Txn)
    requires Wf(t) && t.cb.EstLookupCb?
    ensures Play(t, Replies(EST_WORST)) == Played(Bound(Est), true)
  {
    hide Callback;
    EstGoes(t, Miss);
    PlayReply(t, Miss, [CasOk(1)] + EST_LAST);
    var t1 := Callback(t, Miss, GOOD_ENV).fate.t;
    EstGoes(t1, CasOk(1));
    PlayReply(t1, CasOk(1), EST_LAST);
    EstLastTrips(Callback(t1, CasOk(1), GOOD_ENV).fate.t);
  }

  // A modification that loses two CAS writes, lands the third and is refused.
  function ModRound(last: seq<Reply>): seq<Reply> { [Found(Blank, 1)] + ([CasConflict] + last) }

  const MOD_LAST: seq<Reply> := [Found(Blank, 1)] + ([CasOk(2)] + ([Vdp(Reject)] + ([CasOk(3)] + [])))

  // The refusal and the undo it calls for.
  lemma ModRefused(t: Txn)
    requires Wf(t) && t.cb.ModVdpCb?
    ensures Play(t, Replies([Vdp(Reject)] + ([CasOk(3)] + []))) == Played(Tally(1, 1, 1), true)
  {
    hide Callback, Play, Replies;
    ModGoes(t, Vdp(Reject));
    PlayReply(t, Vdp(Reject), [CasOk(3)] + []);
    var t1 := Callback(t, Vdp(Reject), GOOD_ENV).fate.t;
    ModGoes(t1, CasOk(3));
    PlayReply(t1, CasOk(3), []);
  }

  lemma ModLastRound(t: Txn)
    requires Wf(t) && t.cb.ModReadCb?
    ensures Play(t, Replies(MOD_LAST)) == Played(Tally(3, 2, 1), true)
  {
    hide Callback, Play, Replies;
    ModGoes(t, Found(Blank, 1));
    PlayReply(t, Found(Blank, 1), [CasOk(2)] + ([Vdp(Reject)] + ([CasOk(3)] + [])));
    var t1 := Callback(t, Found(Blank, 1), GOOD_ENV).fate.t;
    ModGoes(t1, CasOk(2));
    PlayReply(t1, CasOk(2), [Vdp(Reject)] + ([CasOk(3)] + []));
    ModRefused(Callback(t1, CasOk(2), GOOD_ENV).fate.t);
  }

  lemma ModLostRound(t: Txn, last: seq<Reply>) returns (u: Txn)
    requires Wf(t) && t.cb.ModReadCb? && t.casRetry + 1 < CAS_MAX_RETRY
    ensures Wf(u) && u.cb.ModReadCb? && u.casRetry == t.casRetry + 1
    ensures var p := Play(u, Replies(last));
            Play(t, Replies(ModRound(last))) == Played(Tally(2, 1, 0).Plus(p.trips), p.ended)
  {
    hide Callback;
    ModGoes(t, Found(Blank, 1));
    PlayReply(t, Found(Blank, 1), [CasConflict] + last);
    var t1 := Callback(t, Found(Blank, 1), GOOD_ENV).fate.t;
    ModGoes(t1, CasConflict);
    PlayReply(t1, CasConflict, last);
    u := Callback(t1, CasConflict, GOOD_ENV).fate.t;
  }

  lemma ModReachesBound(t: Txn)
    requires Wf(t) && t.cb.ModLookupCb? && t.casRetry == 0
    ensures Play(t, Replies([Miss] + ModRound(ModRound(MOD_LAST)))) == Played(Bound(Mod), true)
  {
    hide Callback;
    ModGoes(t, Miss);
    PlayReply(t, Miss, ModRound(ModRound(MOD_LAST)));
    var t1 := Callback(t, Miss, GOOD_ENV).fate.t;
    var t2 := ModLostRound(t1, ModRound(MOD_LAST));
    var t3 := ModLostRound(t2, MOD_LAST);
    ModLastRound(t3);
  }

  // A deletion asks the VDP again on every CAS attempt: three times when it
  // loses them all, which the budget of one VDP trip in PLAN.md does not cover.
  function DelRound(last: seq<Reply>): seq<Reply> {
    [Found(Blank, 1)] + ([Vdp(Accept)] + ([CasConflict] + last))
  }

  lemma DelAccepted(t: Txn, rs: seq<Reply>) returns (u: Txn)
    requires Wf(t) && t.cb.DelVdpCb?
    ensures Wf(u) && u.cb.DelDeleteCb? && u.casRetry == t.casRetry
    ensures var p := Play(u, Replies(rs));
            Play(t, Replies([Vdp(Accept)] + rs)) == Played(Tally(0, 0, 1).Plus(p.trips), p.ended)
  {
    hide Callback, Play, Replies;
    DelGoes(t, Vdp(Accept));
    PlayReply(t, Vdp(Accept), rs);
    u := Callback(t, Vdp(Accept), GOOD_ENV).fate.t;
  }

  lemma DelLostRound(t: Txn, last: seq<Reply>) returns (u: Txn)
    requires Wf(t) && t.cb.DelReadCb?
    ensures t.casRetry + 1 < CAS_MAX_RETRY ==> Wf(u) && u.cb.DelReadCb? && u.casRetry == t.casRetry + 1
    ensures Play(t, Replies(DelRound(last))) ==
              if t.casRetry + 1 < CAS_MAX_RETRY then
                var p := Play(u, Replies(last)); Played(Tally(2, 1, 1).Plus(p.trips), p.ended)
              else Played(Tally(2, 1, 1), true)
  {
    hide Callback, Wf, Play, Replies;
    var t1 := DelFound(t, [Vdp(Accept)] + ([CasConflict] + last));
    var t2 := DelAccepted(t1, [CasConflict] + last);
    u := DelLost(t2, last);
  }

  lemma DelFound(t: Txn, rs: seq<Reply>) returns (u: Txn)
    requires Wf(t) && t.cb.DelReadCb?
    ensures Wf(u) && u.cb.DelVdpCb? && u.casRetry == t.casRetry
    ensures var p := Play(u, Replies(rs));
            Play(t, Replies([Found(Blank, 1)] + rs)) == Played(Tally(1, 0, 0).Plus(p.trips), p.ended)
  {
    hide Callback, Play, Replies;
    DelGoes(t, Found(Blank, 1));
    PlayReply(t, Found(Blank, 1), rs);
    u := Callback(t, Found(Blank, 1), GOOD_ENV).fate.t;
  }

  lemma DelLost(t: Txn, rs: seq<Reply>) returns (u: Txn)
    requires Wf(t) && t.cb.DelDeleteCb?
    ensures t.casRetry + 1 < CAS_MAX_RETRY ==> Wf(u) && u.cb.DelReadCb? && u.casRetry == t.casRetry + 1
    ensures Play(t, Replies([CasConflict] + rs)) ==
              if t.casRetry + 1 < CAS_MAX_RETRY then
                var p := Play(u, Replies(rs)); Played(Tally(1, 1, 0).Plus(p.trips), p.ended)
              else Played(Tally(1, 1, 0), true)
  {
    hide Callback, Play, Replies;
    DelGoes(t, CasConflict);
    PlayReply(t, CasConflict, rs);
    var out := Callback(t, CasConflict, GOOD_ENV);
    u := if out.fate.Await? then out.fate.t else t;
  }

  lemma DelReachesBound(t: Txn)
    requires Wf(t) && t.cb.DelLookupCb? && t.casRetry == 0
    ensures Play(t, Replies([Miss] + DelRound(DelRound(DelRound([]))))) == Played(Bound(Del), true)
  {
    hide Callback;
    DelGoes(t, Miss);
    PlayReply(t, Miss, DelRound(DelRound(DelRound([]))));
    var t1 := Callback(t, Miss, GOOD_ENV).fate.t;
    var t2 := DelLostRound(t1, DelRound(DelRound([])));
    var t3 := DelLostRound(t2, DelRound([]));
    var t4 := DelLostRound(t3, []);
  }
}
