// The HiveServer2 surface's handle table: sessions and the result tables they own, reaped when
// idle and kept under ceilings. The mutex makes every critical section one step.
module HandleTable {
  import opened Basics
  import Decimal
  import Columns

  const IDLE_TTL := 30 * 60
  const MAX_SESSIONS := 512
  const MAX_OPERATIONS := 2048

  datatype Session = Session(warehouse: string, seen: int)

  // A finished statement: its table or its error, the session it came from ("" for metadata
  // calls), and when it was last looked at.
  datatype Operation = Operation(tab: Option<Columns.Table>, err: string, sess: string, seen: int)

  type Sessions = map<string, Session>
  type Operations = map<string, Operation>

  datatype Handles = Handles(sess: Sessions, ops: Operations)

  predicate Idle(seen: int, now: int) { now - seen > IDLE_TTL }

  // ------------------------------------------------------------- what a reap may do

  function IdleSessions(h: Handles, now: int): set<string> { set k | k in h.sess && Idle(h.sess[k].seen, now) }

  function WithoutOpsOf(ops: Operations, gone: set<string>): Operations
  {
    map k | k in ops && ops[k].sess !in gone :: ops[k]
  }

  function LiveOps(ops: Operations, now: int): Operations { map k | k in ops && !Idle(ops[k].seen, now) :: ops[k] }

  /** Idle operations, idle sessions and the operations of those go. */
  function Swept(h: Handles, now: int): Handles
  {
    var gone := IdleSessions(h, now);
    Handles(h.sess - gone, WithoutOpsOf(LiveOps(h.ops, now), gone))
  }

  /** Part of the operations, as many as the ceiling allows, none of them older than one let go. */
  ghost predicate OpsTrimmed(all: Operations, kept: Operations)
  {
    && (forall k | k in kept :: k in all && kept[k] == all[k])
    && |kept| == Min(|all|, MAX_OPERATIONS)
    && OpsOldestFirst(all, kept)
  }

  ghost predicate OpsOldestFirst(all: Operations, kept: Operations)
  {
    forall d, k | d in all && d !in kept && k in kept :: k in all && all[d].seen <= kept[k].seen
  }

  ghost predicate SessionsTrimmed(all: Sessions, kept: Sessions)
  {
    && (forall k | k in kept :: k in all && kept[k] == all[k])
    && |kept| == Min(|all|, MAX_SESSIONS)
    && SessionsOldestFirst(all, kept)
  }

  ghost predicate SessionsOldestFirst(all: Sessions, kept: Sessions)
  {
    forall d, k | d in all && d !in kept && k in kept :: k in all && all[d].seen <= kept[k].seen
  }

  /** A reap sweeps, trims the operations to mid, then trims the sessions and drops the
      operations of those it evicts. Ties leave it a choice. */
  ghost predicate ReapedVia(h: Handles, now: int, mid: Operations, h': Handles)
  {
    var s := Swept(h, now);
    && OpsTrimmed(s.ops, mid) && SessionsTrimmed(s.sess, h'.sess)
    && h'.ops == WithoutOpsOf(mid, s.sess.Keys - h'.sess.Keys)
  }

  ghost predicate Reaped(h: Handles, now: int, h': Handles) { exists mid :: ReapedVia(h, now, mid, h') }

  // -------------------------------------------------------------------- the events

  datatype Event =
    | Open(key: string, warehouse: string, stamp: int, now: int)
    | Close(key: string, now: int)
    | Begin(key: string, stamp: int)
    | Finish(key: string, op: Operation, now: int)
    | Meta(key: string, op: Operation)
    | Poll(key: string, stamp: int)
    | Drop(key: string)

  /** What the event does before it reaps, if it reaps. */
  function Applied(h: Handles, e: Event): Handles
  {
    match e
    case Open(key, warehouse, stamp, _) => h.(sess := h.sess[key := Session(warehouse, stamp)])
    case Close(key, _) => Handles(h.sess - {key}, WithoutOpsOf(h.ops, {key}))
    case Begin(key, stamp) => if key in h.sess then h.(sess := h.sess[key := h.sess[key].(seen := stamp)]) else h
    case Finish(key, op, _) => h.(ops := h.ops[key := op])
    case Meta(key, op) => h.(ops := h.ops[key := op])
    case Poll(key, stamp) => if key in h.ops then h.(ops := h.ops[key := h.ops[key].(seen := stamp)]) else h
    case Drop(key) => h.(ops := h.ops - {key})
  }

  predicate Reaps(e: Event) { e.Open? || e.Close? || e.Finish? }

  ghost predicate Next(h: Handles, e: Event, h': Handles)
  {
    if Reaps(e) then Reaped(Applied(h, e), e.now, h') else h' == Applied(h, e)
  }

  /** What an operation handle answers with. */
  datatype Answer = Unknown | Failed(err: string) | Rows(tab: Columns.Table)

  function AnswerOf(op: Operation): Answer
  {
    if op.err != "" then Failed(op.err) else Rows(if op.tab.None? then Columns.EMPTY_TABLE else op.tab.value)
  }

  function AnswerTo(h: Handles, key: string): Answer { if key in h.ops then AnswerOf(h.ops[key]) else Unknown }

  // ------------------------------------------------------------------ the service

  class Service {
    var sess: Sessions
    var ops: Operations

    constructor ()
      ensures State() == Handles(map[], map[])
    {
      sess, ops := map[], map[];
    }

    function State(): Handles
      reads this
    {
      Handles(sess, ops)
    }

    method DropSessionOps(key: string)
      modifies this`ops
      ensures ops == WithoutOpsOf(old(ops), {key})
    {
      var todo := ops.Keys;
      ghost var all := ops;
      while todo != {}
        invariant todo <= all.Keys
        invariant ops == map k | k in all && (k in todo || all[k].sess != key) :: all[k]
      {
        var k := Pick(todo);
        todo := todo - {k};
        if ops[k].sess == key {
          ops := ops - {k};
        }
      }
    }

    /** Removes one operation none is older than; false when there is none. */
    method EvictOldestOp() returns (found: bool, ghost oldest: string)
      modifies this`ops
      ensures found <==> old(ops) != map[]
      ensures found ==> oldest in old(ops) && ops == old(ops) - {oldest}
      ensures found ==> forall k | k in old(ops) :: old(ops)[oldest].seen <= old(ops)[k].seen
      ensures !found ==> ops == old(ops)
    {
      var candidate := "";
      found := false;
      var todo := ops.Keys;
      while todo != {}
        invariant ops == old(ops) && todo <= ops.Keys
        invariant found <==> todo != ops.Keys
        invariant found ==> candidate in ops && forall k | k in ops && k !in todo :: ops[candidate].seen <= ops[k].seen
      {
        var k := Pick(todo);
        todo := todo - {k};
        if !found || ops[k].seen < ops[candidate].seen {
          candidate, found := k, true;
        }
      }
      oldest := candidate;
      if found {
        ops := ops - {candidate};
      }
    }

    method EvictOldestSession() returns (found: bool, ghost oldest: string)
      modifies this
      ensures found <==> old(sess) != map[]
      ensures found ==> oldest in old(sess) && sess == old(sess) - {oldest}
      ensures found ==> forall k | k in old(sess) :: old(sess)[oldest].seen <= old(sess)[k].seen
      ensures found ==> ops == WithoutOpsOf(old(ops), {oldest})
      ensures !found ==> State() == old(State())
    {
      var candidate := "";
      found := false;
      var todo := sess.Keys;
      while todo != {}
        invariant sess == old(sess) && ops == old(ops) && todo <= sess.Keys
        invariant found <==> todo != sess.Keys
        invariant found ==> candidate in sess && forall k | k in sess && k !in todo ::
          sess[candidate].seen <= sess[k].seen
      {
        var k := Pick(todo);
        todo := todo - {k};
        if !found || sess[k].seen < sess[candidate].seen {
          candidate, found := k, true;
        }
      }
      oldest := candidate;
      if found {
        sess := sess - {candidate};
        DropSessionOps(candidate);
      }
    }

    method SweepOps(now: int)
      modifies this`ops
      ensures ops == LiveOps(old(ops), now)
    {
      var todo := ops.Keys;
      ghost var all := ops;
      while todo != {}
        invariant todo <= all.Keys
        invariant ops == map k | k in all && (k in todo || !Idle(all[k].seen, now)) :: all[k]
      {
        var k := Pick(todo);
        todo := todo - {k};
        if now - ops[k].seen > IDLE_TTL {
          ops := ops - {k};
        }
      }
    }

    method SweepSessions(now: int)
      modifies this
      ensures
        var gone := IdleSessions(old(State()), now);
        sess == old(sess) - gone && ops == WithoutOpsOf(old(ops), gone)
    {
      var todo := sess.Keys;
      ghost var before, gone: set<string> := State(), {};
      while todo != {}
        invariant todo <= sess.Keys && gone !! todo && sess.Keys !! gone
        invariant sess == before.sess - gone && ops == WithoutOpsOf(before.ops, gone)
        invariant forall k | k in before.sess && k !in todo :: k in gone <==> Idle(before.sess[k].seen, now)
        invariant gone <= before.sess.Keys
      {
        var k := Pick(todo);
        todo := todo - {k};
        if now - sess[k].seen > IDLE_TTL {
          sess := sess - {k};
          DropSessionOps(k);
          DropOneMore(before.ops, gone, k);
          gone := gone + {k};
        }
      }
      assert gone == IdleSessions(before, now);
    }

    method TrimOps()
      modifies this`ops
      ensures OpsTrimmed(old(ops), ops)
    {
      ghost var all := ops;
      while |ops| > MAX_OPERATIONS
        invariant forall k | k in ops :: k in all && ops[k] == all[k]
        invariant |ops| >= Min(|all|, MAX_OPERATIONS) && |ops| <= |all|
        invariant |all| <= MAX_OPERATIONS ==> ops == all
        invariant OpsOldestFirst(all, ops)
        decreases |ops|
      {
        var found, oldest := EvictOldestOp();
        if !found {
          break;
        }
      }
    }

    method TrimSessions()
      modifies this
      ensures SessionsTrimmed(old(sess), sess)
      ensures ops == WithoutOpsOf(old(ops), old(sess).Keys - sess.Keys)
    {
      ghost var all, before := sess, ops;
      while |sess| > MAX_SESSIONS
        invariant forall k | k in sess :: k in all && sess[k] == all[k]
        invariant |sess| >= Min(|all|, MAX_SESSIONS) && |sess| <= |all|
        invariant |all| <= MAX_SESSIONS ==> sess == all
        invariant SessionsOldestFirst(all, sess)
        invariant ops == WithoutOpsOf(before, all.Keys - sess.Keys)
        decreases |sess|
      {
        ghost var was := sess;
        var found, oldest := EvictOldestSession();
        if !found {
          break;
        }
        DropOneMore(before, all.Keys - was.Keys, oldest);
        assert all.Keys - sess.Keys == (all.Keys - was.Keys) + {oldest};
      }
    }

    method Reap(now: int)
      modifies this
      ensures Reaped(old(State()), now, State())
    {
      ghost var h := State();
      SweepOps(now);
      SweepSessions(now);
      assert State() == Swept(h, now);
      TrimOps();
      ghost var mid := ops;
      TrimSessions();
      assert ReapedVia(h, now, mid, State());
    }
  
    // ------------------------------------------------------------- critical sections

    /** A session is opened only when the client speaks a supported protocol, names a warehouse,
        an engine is attached and the warehouse exists. */
    method OpenSession(key: string, tooOld: bool, warehouse: string, attached: bool, known: bool, stamp: int, now: int)
        returns (ok: bool)
      modifies this
      ensures ok <==> !tooOld && warehouse != "" && attached && known
      ensures ok ==> Next(old(State()), Open(key, warehouse, stamp, now), State())
      ensures !ok ==> State() == old(State())
    {
      if tooOld || warehouse == "" || !attached || !known {
        return false;
      }
      sess := sess[key := Session(warehouse, stamp)];
      Reap(now);
      ok := true;
    }

    method CloseSession(key: string, now: int)
      modifies this
      ensures Next(old(State()), Close(key, now), State())
    {
      sess := sess - {key};
      DropSessionOps(key);
      Reap(now);
    }

    /** The first critical section of a statement: the session must exist, and is touched. */
    method BeginStatement(key: string, stamp: int) returns (warehouse: Option<string>)
      modifies this
      ensures Next(old(State()), Begin(key, stamp), State())
      ensures warehouse == if key in old(sess) then Some(old(sess)[key].warehouse) else None
    {
      if key !in sess {
        return None;
      }
      warehouse := Some(sess[key].warehouse);
      sess := sess[key := sess[key].(seen := stamp)];
    }

    /** The last one: the engine has answered, and meanwhile the session may have gone. */
    method FinishStatement(key: string, tab: Option<Columns.Table>, err: string, sessKey: string, stamp: int, now: int)
      modifies this
      ensures Next(old(State()), Finish(key, Operation(tab, err, sessKey, stamp), now), State())
    {
      hide Reaped;
      ops := ops[key := Operation(tab, err, sessKey, stamp)];
      Reap(now);
    }

    /** A metadata call's result: no session, never seen, and no reap. */
    method FinishMeta(key: string, tab: Option<Columns.Table>, err: string)
      modifies this
      ensures
        var t := if err != "" then None else if tab.None? then Some(Columns.EMPTY_TABLE) else tab;
        Next(old(State()), Meta(key, Operation(t, err, "", 0)), State())
    {
      if err != "" {
        ops := ops[key := Operation(None, err, "", 0)];
        return;
      }
      ops := ops[key := Operation(Some(if tab.None? then Columns.EMPTY_TABLE else tab.value), "", "", 0)];
    }

    /** Polling a status or fetching a result: touches the operation, not its session. */
    method ReadOperation(key: string, stamp: int) returns (answer: Answer)
      modifies this
      ensures Next(old(State()), Poll(key, stamp), State())
      ensures answer == AnswerTo(old(State()), key)
    {
      if key !in ops {
        return Unknown;
      }
      var op := ops[key];
      ops := ops[key := op.(seen := stamp)];
      answer := AnswerOf(op);
    }

    /** Closing or cancelling an operation. */
    method CloseOperation(key: string)
      modifies this
      ensures Next(old(State()), Drop(key), State())
    {
      ops := ops - {key};
    }
  }

  lemma DropOneMore(ops: Operations, gone: set<string>, k: string)
    ensures WithoutOpsOf(WithoutOpsOf(ops, gone), {k}) == WithoutOpsOf(ops, gone + {k})
  {
  }

  // ------------------------------------------------------------------ one reap

  /** After a reap every survivor is as it was and within the TTL, both ceilings hold, and no
      surviving operation belongs to a session this reap removed. */
  lemma {:induction false} ReapLeavesOnlyLive(h: Handles, now: int, h': Handles)
    requires Reaped(h, now, h')
    ensures forall k | k in h'.ops :: k in h.ops && h'.ops[k] == h.ops[k] && !Idle(h.ops[k].seen, now)
    ensures forall k | k in h'.sess :: k in h.sess && h'.sess[k] == h.sess[k] && !Idle(h.sess[k].seen, now)
    ensures |h'.ops| <= MAX_OPERATIONS && |h'.sess| <= MAX_SESSIONS
    ensures forall k | k in h'.ops :: h'.ops[k].sess in h.sess ==> h'.ops[k].sess in h'.sess
  {
    hide Idle, ReapedVia;
    var mid :| ReapedVia(h, now, mid, h');
    WithinCeilings(h, now, mid, h');
    forall k | k in h'.ops
      ensures k in h.ops && h'.ops[k] == h.ops[k] && !Idle(h.ops[k].seen, now)
      ensures h'.ops[k].sess in h.sess ==> h'.ops[k].sess in h'.sess
    {
      OpSurvives(h, now, mid, h', k);
    }
    forall k | k in h'.sess ensures k in h.sess && h'.sess[k] == h.sess[k] && !Idle(h.sess[k].seen, now) {
      SessionSurvives(h, now, mid, h', k);
    }
  }

  lemma WithinCeilings(h: Handles, now: int, mid: Operations, h': Handles)
    requires ReapedVia(h, now, mid, h')
    ensures |h'.ops| <= MAX_OPERATIONS && |h'.sess| <= MAX_SESSIONS
  {
    hide Swept, OpsOldestFirst, SessionsOldestFirst;
    assert h'.ops.Keys <= mid.Keys;
    SubsetSize(h'.ops.Keys, mid.Keys);
  }

  lemma OpSurvives(h: Handles, now: int, mid: Operations, h': Handles, k: string)
    requires ReapedVia(h, now, mid, h') && k in h'.ops
    ensures k in h.ops && h'.ops[k] == h.ops[k] && !Idle(h.ops[k].seen, now)
    ensures h'.ops[k].sess in h.sess ==> h'.ops[k].sess in h'.sess
  {
    hide Idle, OpsOldestFirst, SessionsTrimmed;
    assert k in mid && k in Swept(h, now).ops;
  }

  lemma SessionSurvives(h: Handles, now: int, mid: Operations, h': Handles, k: string)
    requires ReapedVia(h, now, mid, h') && k in h'.sess
    ensures k in h.sess && h'.sess[k] == h.sess[k] && !Idle(h.sess[k].seen, now)
  {
    hide Idle, OpsTrimmed, SessionsOldestFirst, WithoutOpsOf;
    assert k in Swept(h, now).sess;
  }

  /** Why a reap may remove an operation: it is idle; its session goes in the same reap; or the
      live operations exceed the ceiling and nothing their eviction keeps is older. */
  ghost predicate ReapCause(h: Handles, now: int, h': Handles, k: string)
    requires k in h.ops
  {
    var op := h.ops[k];
    || Idle(op.seen, now)
    || (op.sess in h.sess && op.sess !in h'.sess)
    || exists mid :: ReapedVia(h, now, mid, h') && OverCeiling(h, now, mid, k)
  }

  /** The eviction that left mid let k go, and kept nothing older. */
  ghost predicate OverCeiling(h: Handles, now: int, mid: Operations, k: string)
    requires k in h.ops
  {
    |Swept(h, now).ops| > MAX_OPERATIONS && k !in mid && forall x | x in mid :: h.ops[k].seen <= mid[x].seen
  }

  ghost predicate SessionCause(h: Handles, now: int, h': Handles, k: string)
    requires k in h.sess
  {
    || Idle(h.sess[k].seen, now)
    || (|Swept(h, now).sess| > MAX_SESSIONS && forall x | x in h'.sess :: h.sess[k].seen <= h'.sess[x].seen)
  }

  lemma {:induction false} EveryRemovalHasACause(h: Handles, now: int, h': Handles)
    requires Reaped(h, now, h')
    ensures forall k | k in h.ops && k !in h'.ops :: ReapCause(h, now, h', k)
    ensures forall k | k in h.sess && k !in h'.sess :: SessionCause(h, now, h', k)
  {
    hide ReapedVia, ReapCause, SessionCause;
    var mid :| ReapedVia(h, now, mid, h');
    forall k | k in h.ops && k !in h'.ops ensures ReapCause(h, now, h', k) {
      OpCause(h, now, mid, h', k);
    }
    forall k | k in h.sess && k !in h'.sess ensures SessionCause(h, now, h', k) {
      SessionGoes(h, now, mid, h', k);
    }
  }

  lemma {:induction false} OpCause(h: Handles, now: int, mid: Operations, h': Handles, k: string)
    requires ReapedVia(h, now, mid, h') && k in h.ops && k !in h'.ops
    ensures ReapCause(h, now, h', k)
  {
    var all := Swept(h, now).ops;
    if k in all && k !in mid {
      CeilingCause(all, mid, k);
      assert OverCeiling(h, now, mid, k);
    } else if k !in all {
      SweptCause(h, now, k);
      assert SessionsTrimmed(Swept(h, now).sess, h'.sess);
    }
  }

  lemma SweptCause(h: Handles, now: int, k: string)
    requires k in h.ops && k !in Swept(h, now).ops
    ensures Idle(h.ops[k].seen, now) || (h.ops[k].sess in h.sess && h.ops[k].sess !in Swept(h, now).sess)
  {
    hide Idle;
  }

  lemma CeilingCause(all: Operations, kept: Operations, k: string)
    requires OpsTrimmed(all, kept) && k in all && k !in kept
    ensures |all| > MAX_OPERATIONS && forall x | x in kept :: all[k].seen <= kept[x].seen
  {
    SameIfNotOver(all, kept, k);
  }

  lemma {:induction false} SessionGoes(h: Handles, now: int, mid: Operations, h': Handles, k: string)
    requires ReapedVia(h, now, mid, h') && k in h.sess && k !in h'.sess
    ensures SessionCause(h, now, h', k)
  {
    hide OpsTrimmed, WithoutOpsOf, LiveOps;
    var s := Swept(h, now).sess;
    if k in s {
      assert h'.sess.Keys <= s.Keys;
      SubsetSize(h'.sess.Keys, s.Keys);
    }
  }

  lemma SameIfNotOver(all: Operations, kept: Operations, k: string)
    requires OpsTrimmed(all, kept) && k in all && k !in kept
    ensures |all| > MAX_OPERATIONS
  {
    assert kept.Keys <= all.Keys;
    SubsetSize(kept.Keys, all.Keys);
  }

  /** Reaping again at the same clock removes nothing. */
  lemma {:induction false} ReapTwiceIsReapOnce(h: Handles, now: int, h': Handles, h'': Handles)
    requires Reaped(h, now, h') && Reaped(h', now, h'')
    ensures h'' == h'
  {
    ReapLeavesOnlyLive(h, now, h');
    NothingToReap(h', now, h'');
  }

  ghost predicate WithinLimits(h: Handles, now: int)
  {
    && (forall k | k in h.ops :: !Idle(h.ops[k].seen, now)) && (forall k | k in h.sess :: !Idle(h.sess[k].seen, now))
    && |h.ops| <= MAX_OPERATIONS && |h.sess| <= MAX_SESSIONS
  }

  lemma NothingSwept(h: Handles, now: int)
    requires WithinLimits(h, now)
    ensures Swept(h, now) == h
  {
    hide Idle;
    assert IdleSessions(h, now) == {};
  }

  lemma NothingTrimmed(h: Handles, mid: Operations, sess: Sessions)
    requires |h.ops| <= MAX_OPERATIONS && |h.sess| <= MAX_SESSIONS
    ensures OpsTrimmed(h.ops, mid) <==> mid == h.ops
    ensures SessionsTrimmed(h.sess, sess) <==> sess == h.sess
  {
    if OpsTrimmed(h.ops, mid) {
      assert mid.Keys <= h.ops.Keys;
      SubsetSize(mid.Keys, h.ops.Keys);
    }
    if SessionsTrimmed(h.sess, sess) {
      assert sess.Keys <= h.sess.Keys;
      SubsetSize(sess.Keys, h.sess.Keys);
    }
  }

  /** A table within the TTL and under its ceilings is left as it is. */
  lemma {:induction false} NothingToReap(h: Handles, now: int, h': Handles)
    requires WithinLimits(h, now)
    ensures Reaped(h, now, h') <==> h' == h
  {
    hide OpsTrimmed, SessionsTrimmed, Swept, WithinLimits;
    NothingSwept(h, now);
    assert h.sess.Keys - h.sess.Keys == {} && WithoutOpsOf(h.ops, {}) == h.ops;
    WithinSizes(h, now);
    NothingTrimmed(h, h.ops, h.sess);
    assert ReapedVia(h, now, h.ops, h);
    if Reaped(h, now, h') {
      var mid :| ReapedVia(h, now, mid, h');
      NothingTrimmed(h, mid, h'.sess);
    }
  }

  lemma WithinSizes(h: Handles, now: int)
    requires WithinLimits(h, now)
    ensures |h.ops| <= MAX_OPERATIONS && |h.sess| <= MAX_SESSIONS
  {
  }

  /** Within the ceilings a reap goes by age alone: a session stays for half an hour after it was last seen, an
      operation as long, unless its session goes. */
  lemma {:induction false} ReapGoesByAge(h: Handles, now: int, h': Handles)
    requires Reaped(h, now, h') && |h.sess| <= 512 && |h.ops| <= 2048
    ensures forall k :: k in h'.sess <==> k in h.sess && now - h.sess[k].seen <= 1800
    ensures forall k :: k in h'.ops <==>
      && k in h.ops && now - h.ops[k].seen <= 1800
      && (h.ops[k].sess in h.sess ==> now - h.sess[h.ops[k].sess].seen <= 1800)
  {
    hide OpsTrimmed, SessionsTrimmed, WithoutOpsOf;
    var mid :| ReapedVia(h, now, mid, h');
    var s := Swept(h, now);
    SweptByAge(h, now);
    SweptFits(h, now);
    NothingTrimmed(s, mid, h'.sess);
    assert s.sess.Keys - s.sess.Keys == {};
    NoneWithout(s.ops);
  }

  /** No reap leaves more than five hundred and twelve sessions, or two thousand and forty-eight results; and it
      lets none go for their number alone while there are no more. */
  lemma {:induction false} CeilingsAre(h: Handles, now: int, h': Handles)
    requires Reaped(h, now, h')
    ensures |h'.sess| <= 512 && |h'.ops| <= 2048
    ensures |Swept(h, now).sess| <= 512 ==> h'.sess == Swept(h, now).sess
    ensures |Swept(h, now).sess| <= 512 && |Swept(h, now).ops| <= 2048 ==> h' == Swept(h, now)
    ensures |Swept(h, now).sess| > 512 ==> |h'.sess| == 512
  {
    hide Swept, WithoutOpsOf, OpsOldestFirst, SessionsOldestFirst;
    ReapLeavesOnlyLive(h, now, h');
    var mid :| ReapedVia(h, now, mid, h');
    var s := Swept(h, now);
    if |s.sess| <= 512 {
      assert h'.sess.Keys <= s.sess.Keys;
      SubsetSize(h'.sess.Keys, s.sess.Keys);
      assert s.sess.Keys - h'.sess.Keys == {};
      NoneWithout(mid);
      if |s.ops| <= 2048 {
        NothingTrimmed(s, mid, h'.sess);
      }
    }
  }

  lemma NoneWithout(ops: Operations)
    ensures WithoutOpsOf(ops, {}) == ops
  {
  }

  lemma SweptByAge(h: Handles, now: int)
    ensures forall k :: k in Swept(h, now).sess <==> k in h.sess && now - h.sess[k].seen <= 1800
    ensures forall k :: k in Swept(h, now).ops <==>
      && k in h.ops && now - h.ops[k].seen <= 1800
      && (h.ops[k].sess in h.sess ==> now - h.sess[h.ops[k].sess].seen <= 1800)
  {
  }

  lemma SweptFits(h: Handles, now: int)
    requires |h.sess| <= 512 && |h.ops| <= 2048
    ensures |Swept(h, now).sess| <= MAX_SESSIONS && |Swept(h, now).ops| <= MAX_OPERATIONS
  {
    assert Swept(h, now).sess.Keys <= h.sess.Keys && Swept(h, now).ops.Keys <= h.ops.Keys;
    SubsetSize(Swept(h, now).sess.Keys, h.sess.Keys);
    SubsetSize(Swept(h, now).ops.Keys, h.ops.Keys);
  }

  /** What an operation answers: its error when it has one, otherwise its table, or an empty one. */
  lemma AnswersAre(tab: Columns.Table, err: string, sess: string, seen: int)
    requires err != ""
    ensures AnswerOf(Operation(Some(tab), "", sess, seen)) == Rows(tab)
    ensures AnswerOf(Operation(None, "", sess, seen)) == Rows(Columns.Table([], [], []))
    ensures AnswerOf(Operation(Some(tab), err, sess, seen)) == AnswerOf(Operation(None, err, sess, seen)) == Failed(err)
  {
  }

  /** What each critical section does for its own key, while the table is within its ceilings. */
  lemma {:induction false} EventsAreSeen(h: Handles, e: Event, h': Handles)
    requires Next(h, e, h') && |h.sess| < 512 && |h.ops| < 2048
    ensures e.Open? && e.now - e.stamp <= 1800 ==> e.key in h'.sess && h'.sess[e.key] == Session(e.warehouse, e.stamp)
    ensures e.Close? ==>
      e.key !in h'.sess && forall k | k in h.ops && h.ops[k].sess == e.key :: AnswerTo(h', k) == Unknown
    ensures e.Begin? && e.key in h.sess ==> h'.sess == h.sess[e.key := Session(h.sess[e.key].warehouse, e.stamp)]
    ensures e.Begin? ==> h'.ops == h.ops && h'.sess.Keys == h.sess.Keys
    ensures e.Finish? && e.now - e.op.seen <= 1800 &&
            (e.op.sess in h.sess ==> e.now - h.sess[e.op.sess].seen <= 1800) ==>
      AnswerTo(h', e.key) == AnswerOf(e.op)
    ensures e.Meta? ==>
      AnswerTo(h', e.key) == AnswerOf(e.op) && h'.sess == h.sess && h'.ops - {e.key} == h.ops - {e.key}
    ensures e.Poll? ==> h'.sess == h.sess && forall k :: AnswerTo(h', k) == AnswerTo(h, k)
    ensures e.Poll? && e.key in h.ops ==> h'.ops[e.key].seen == e.stamp
    ensures e.Drop? ==> AnswerTo(h', e.key) == Unknown && h'.sess == h.sess && h'.ops == h.ops - {e.key}
  {
    hide Reaped, AnswerOf;
    var a := Applied(h, e);
    if Reaps(e) {
      AppliedFits(h, e);
      ReapGoesByAge(a, e.now, h');
      ReapLeavesOnlyLive(a, e.now, h');
    } else if e.Poll? {
      PollAnswersAlike(h, e, h');
    }
  }

  lemma PollAnswersAlike(h: Handles, e: Event, h': Handles)
    requires e.Poll? && Next(h, e, h')
    ensures forall k :: AnswerTo(h', k) == AnswerTo(h, k)
  {
  }

  lemma AppliedFits(h: Handles, e: Event)
    requires |h.sess| < 512 && |h.ops| < 2048 && Reaps(e)
    ensures |Applied(h, e).sess| <= 512 && |Applied(h, e).ops| <= 2048
  {
    hide WithoutOpsOf;
    match e
    case Open(key, warehouse, stamp, _) => OneMoreKey(h.sess, key, Session(warehouse, stamp));
    case Close(key, _) =>
      SubsetSize((h.sess - {key}).Keys, h.sess.Keys);
      assert |(h.sess - {key}).Keys| == |h.sess - {key}|;
      FewerOps(h.ops, {key});
    case Finish(key, op, _) => OneMoreKey(h.ops, key, op);
    case _ =>
  }

  lemma OneMoreKey<V>(m: map<string, V>, key: string, v: V)
    ensures |m[key := v]| <= |m| + 1
  {
    assert m[key := v].Keys == m.Keys + {key};
    assert |m[key := v].Keys| == |m[key := v]|;
  }

  lemma FewerOps(ops: Operations, gone: set<string>)
    ensures |WithoutOpsOf(ops, gone)| <= |ops|
  {
    assert WithoutOpsOf(ops, gone).Keys <= ops.Keys;
    SubsetSize(WithoutOpsOf(ops, gone).Keys, ops.Keys);
    assert |WithoutOpsOf(ops, gone).Keys| == |WithoutOpsOf(ops, gone)|;
  }

  /** So a statement begun keeps its session, and a result polled stays, through any reap in the half hour
      after, while the ceilings hold. */
  lemma {:induction false} UseKeeps(h: Handles, h1: Handles, e: Event, now: int, h2: Handles)
    requires ((e.Begin? && e.key in h.sess) || (e.Poll? && e.key in h.ops)) && Next(h, e, h1) && Reaped(h1, now, h2)
    requires |h.sess| <= 512 && |h.ops| <= 2048 && now - e.stamp <= 1800
    ensures e.Begin? ==> e.key in h2.sess && h2.sess[e.key].warehouse == h.sess[e.key].warehouse
    ensures e.Poll? && (h.ops[e.key].sess in h.sess ==> now - h.sess[h.ops[e.key].sess].seen <= 1800) ==>
      AnswerTo(h2, e.key) == AnswerTo(h, e.key) != Unknown
  {
    hide Reaped;
    SameSizes(h, e, h1);
    ReapGoesByAge(h1, now, h2);
    ReapLeavesOnlyLive(h1, now, h2);
  }

  lemma SameSizes(h: Handles, e: Event, h1: Handles)
    requires (e.Begin? || e.Poll?) && Next(h, e, h1)
    ensures |h1.sess| == |h.sess| && |h1.ops| == |h.ops|
  {
    assert h1.sess.Keys == h.sess.Keys && h1.ops.Keys == h.ops.Keys;
    assert |h1.sess.Keys| == |h1.sess| && |h1.ops.Keys| == |h1.ops|;
    assert |h.sess.Keys| == |h.sess| && |h.ops.Keys| == |h.ops|;
  }

  // ---------------------------------------------------------------------- whole runs

  /** Handles are random, so a new one is a key nothing in the table uses. */
  predicate Fresh(h: Handles, e: Event)
  {
    match e
    case Open(key, _, _, _) => key !in h.sess && forall k | k in h.ops :: h.ops[k].sess != key
    case Finish(key, _, _) => key !in h.ops
    case Meta(key, op) => key !in h.ops && op.sess == ""
    case _ => true
  }

  datatype History = History(states: seq<Handles>, events: seq<Event>)

  /** Any interleaving of the service's critical sections, from an empty table. */
  ghost predicate IsHistory(r: History)
  {
    && |r.states| == |r.events| + 1 && r.states[0] == Handles(map[], map[])
    && forall i | 0 <= i < |r.events| ::
         Fresh(r.states[i], r.events[i]) && Next(r.states[i], r.events[i], r.states[i + 1])
  }

  /** How many metadata results were inserted since the last reap, after n events. */
  function MetaSince(events: seq<Event>, n: nat): nat
    requires n <= |events|
  {
    if n == 0 || Reaps(events[n - 1]) then 0
    else MetaSince(events, n - 1) + if events[n - 1].Meta? then 1 else 0
  }

  lemma KeysAfter(h: Handles, e: Event)
    requires !Reaps(e)
    ensures Applied(h, e).sess.Keys == h.sess.Keys
    ensures Applied(h, e).ops.Keys ==
      match e
      case Meta(key, _) => h.ops.Keys + {key}
      case Drop(key) => h.ops.Keys - {key}
      case _ => h.ops.Keys
  {
  }

  lemma {:induction false} SizesAfter(h: Handles, e: Event, h': Handles)
    requires Next(h, e, h') && !Reaps(e)
    ensures |h'.sess| == |h.sess|
    ensures |h'.ops| <= |h.ops| + if e.Meta? then 1 else 0
  {
    hide Applied, Reaped;
    KeysAfter(h, e);
    assert |h'.sess| == |h'.sess.Keys| && |h.sess| == |h.sess.Keys|;
    assert |h'.ops| == |h'.ops.Keys| && |h.ops| == |h.ops.Keys|;
    if e.Drop? {
      SubsetSize(h.ops.Keys - {e.key}, h.ops.Keys);
    }
  }

  /** At every lock release there are at most 512 sessions, and at most 2048 operations plus the
      metadata results inserted since the last reap. */
  lemma {:induction false} CapacityHolds(r: History, n: nat)
    requires IsHistory(r) && n < |r.states|
    ensures |r.states[n].sess| <= MAX_SESSIONS
    ensures |r.states[n].ops| <= MAX_OPERATIONS + MetaSince(r.events, n)
  {
    hide Next, Fresh, Reaped;
    if n > 0 {
      CapacityHolds(r, n - 1);
      var h, e, h' := r.states[n - 1], r.events[n - 1], r.states[n];
      assert Next(h, e, r.states[n - 1 + 1]);
      if Reaps(e) {
        ReapedBy(h, e, h');
      } else {
        SizesAfter(h, e, h');
      }
    }
  }

  lemma ReapedBy(h: Handles, e: Event, h': Handles)
    requires Next(h, e, h') && Reaps(e)
    ensures Reaped(Applied(h, e), e.now, h')
    ensures |h'.ops| <= MAX_OPERATIONS && |h'.sess| <= MAX_SESSIONS
  {
    hide Reaped;
    ReapLeavesOnlyLive(Applied(h, e), e.now, h');
  }

  /** Two operations answer alike and belong to the same session. */
  predicate SameResult(a: Operation, b: Operation) { a.tab == b.tab && a.err == b.err && a.sess == b.sess }

  /** Why an event may remove an operation: it is closed, its session is closed, or a reap finds
      a cause. */
  ghost predicate Cause(h: Handles, e: Event, h': Handles, k: string)
    requires k in h.ops
  {
    || e == Drop(k)
    || (e.Close? && e.key == h.ops[k].sess)
    || (Reaps(e) && k in Applied(h, e).ops && ReapCause(Applied(h, e), e.now, h', k))
  }

  /** One event leaves an operation's result as it is, or removes it for a cause. */
  lemma {:induction false} KeptOrCaused(h: Handles, e: Event, h': Handles, k: string)
    requires Fresh(h, e) && Next(h, e, h') && k in h.ops
    ensures k in h'.ops ==> SameResult(h'.ops[k], h.ops[k])
    ensures k !in h'.ops ==> Cause(h, e, h', k)
  {
    hide Swept, ReapCause;
    if Reaps(e) {
      var pre := Applied(h, e);
      ReapLeavesOnlyLive(pre, e.now, h');
      EveryRemovalHasACause(pre, e.now, h');
      if !(e.Close? && e.key == h.ops[k].sess) {
        assert k in pre.ops && pre.ops[k] == h.ops[k];
      }
    }
  }

  /** A stored result keeps answering identically until one of the causes: its own close, its
      session's close, its or its session's idling out, eviction of its session, or the ceiling. */
  lemma {:induction false} ResultsPersist(r: History, k: string, i: nat, j: nat)
    requires IsHistory(r) && i <= j < |r.states| && k in r.states[i].ops
    requires forall n | i <= n < j :: k in r.states[n].ops ==> !Cause(r.states[n], r.events[n], r.states[n + 1], k)
    ensures k in r.states[j].ops && SameResult(r.states[j].ops[k], r.states[i].ops[k])
    ensures AnswerTo(r.states[j], k) == AnswerTo(r.states[i], k) != Unknown
    decreases j - i
  {
    hide Next, Fresh, Cause;
    if i < j {
      assert Next(r.states[i], r.events[i], r.states[i + 1]) && Fresh(r.states[i], r.events[i]);
      KeptOrCaused(r.states[i], r.events[i], r.states[i + 1], k);
      ResultsPersist(r, k, i + 1, j);
    }
  }

  // --------------------------------------------------- closing another client's session

  /** The operations last seen no earlier than k, k among them. */
  ghost function NotOlder(ops: Operations, k: string): set<string>
    requires k in ops
  {
    set x | x in ops && ops[x].seen >= ops[k].seen
  }

  /** While it and its session are live, closing someone else's session concerns k only through
      the operation ceiling. */
  ghost predicate OtherCloses(h: Handles, c: string, now: int, k: string)
  {
    && k in h.ops && h.ops[k].sess != c && !Idle(h.ops[k].seen, now)
    && (h.ops[k].sess in h.sess ==> !Idle(h.sess[h.ops[k].sess].seen, now))
    && |h.sess| <= MAX_SESSIONS
  }

  ghost function LiveAfterClose(h: Handles, c: string, now: int): Operations
  {
    Swept(Applied(h, Close(c, now)), now).ops
  }

  lemma {:induction false} TrimKeepsNewest(all: Operations, kept: Operations, k: string)
    requires OpsTrimmed(all, kept) && k in all && |NotOlder(all, k)| <= MAX_OPERATIONS
    ensures k in kept
  {
    if k !in kept {
      SameIfNotOver(all, kept, k);
      forall x | x in kept ensures x in NotOlder(all, k) - {k} {
        assert all[k].seen <= kept[x].seen;
      }
      assert kept.Keys <= NotOlder(all, k) - {k};
      SubsetSize(kept.Keys, NotOlder(all, k) - {k});
    }
  }

  ghost predicate NoneOlder(ops: Operations, x: string)
  {
    x in ops && forall y | y in ops :: ops[x].seen <= ops[y].seen
  }

  lemma {:induction false} OldestOp(ops: Operations, k: string) returns (x: string)
    requires k in ops
    ensures NoneOlder(ops, x)
    decreases |ops|
  {
    x := k;
    if !NoneOlder(ops, k) {
      var older :| older in ops && ops[older].seen < ops[k].seen;
      var rest := ops - {k};
      assert rest.Keys == ops.Keys - {k};
      assert |rest.Keys| < |ops.Keys|;
      x := OldestOp(rest, older);
      assert ops[x].seen <= ops[older].seen < ops[k].seen;
      forall y | y in ops ensures ops[x].seen <= ops[y].seen {
        assert y == k || (y in rest && rest[x].seen <= rest[y].seen);
      }
    }
  }

  lemma OneLess(all: Operations, x: string)
    requires x in all
    ensures (all - {x}).Keys == all.Keys - {x} && |all - {x}| == |all| - 1
  {
    assert (all - {x}).Keys == all.Keys - {x};
    assert |all - {x}| == |(all - {x}).Keys| && |all| == |all.Keys|;
  }

  lemma OneOlderLess(all: Operations, x: string, k: string)
    requires NoneOlder(all, x) && k in all && !NoneOlder(all, k)
    ensures x != k && NotOlder(all - {x}, k) == NotOlder(all, k)
    ensures |NotOlder(all, k)| < |all|
  {
    OneLess(all, x);
    assert NotOlder(all, k) <= (all - {x}).Keys;
    SubsetSize(NotOlder(all, k), (all - {x}).Keys);
  }

  /** What is kept of the rest was none of it older than the one let go first. */
  lemma OldestFirstAgain(all: Operations, x: string, kept: Operations)
    requires NoneOlder(all, x) && OpsOldestFirst(all - {x}, kept)
    requires forall y | y in kept :: y in all - {x} && kept[y] == (all - {x})[y]
    ensures (forall y | y in kept :: y in all && kept[y] == all[y]) && OpsOldestFirst(all, kept)
  {
  }

  /** Oldest first, n operations can be let go with k among them when fewer than n are older. */
  lemma {:induction false} EvictWith(all: Operations, k: string, n: nat) returns (kept: Operations)
    requires k in all && 0 < n <= |all| && |all| - |NotOlder(all, k)| < n
    ensures k !in kept && |kept| == |all| - n
    ensures (forall x | x in kept :: x in all && kept[x] == all[x]) && OpsOldestFirst(all, kept)
    decreases n
  {
    hide NotOlder, OpsOldestFirst, NoneOlder;
    if NoneOlder(all, k) {
      OneLess(all, k);
      kept := EvictAny(all - {k}, n - 1);
      OldestFirstAgain(all, k, kept);
    } else {
      var x := OldestOp(all, k);
      OneLess(all, x);
      OneOlderLess(all, x, k);
      kept := EvictWith(all - {x}, k, n - 1);
      OldestFirstAgain(all, x, kept);
    }
  }

  lemma {:induction false} EvictAny(all: Operations, n: nat) returns (kept: Operations)
    requires n <= |all|
    ensures |kept| == |all| - n
    ensures (forall x | x in kept :: x in all && kept[x] == all[x]) && OpsOldestFirst(all, kept)
    decreases n
  {
    kept := all;
    if n > 0 {
      assert all.Keys != {};
      var some :| some in all;
      var x := OldestOp(all, some);
      OneLess(all, x);
      kept := EvictAny(all - {x}, n - 1);
      OldestFirstAgain(all, x, kept);
    }
  }

  /** Closing another session keeps k whatever ties the eviction breaks exactly when the live
      operations at least as recent as k fit under the ceiling. (Metadata results are inserted
      without a reap, and a polled one is as recent as any, so they may not.) */
  lemma {:induction false} OtherCloseKeepsIff(h: Handles, c: string, now: int, k: string)
    requires OtherCloses(h, c, now, k)
    ensures k in LiveAfterClose(h, c, now)
    ensures (forall h' :: Next(h, Close(c, now), h') ==> k in h'.ops)
      <==> |NotOlder(LiveAfterClose(h, c, now), k)| <= MAX_OPERATIONS
  {
    var pre, live := Applied(h, Close(c, now)), LiveAfterClose(h, c, now);
    StaysLive(h, c, now, k);
    if |NotOlder(live, k)| <= MAX_OPERATIONS {
      forall h' | Next(h, Close(c, now), h') ensures k in h'.ops {
        KeptUnderCeiling(h, c, now, k, h');
      }
    } else {
      var h' := EvictedOverCeiling(h, c, now, k);
    }
  }

  lemma StaysLive(h: Handles, c: string, now: int, k: string)
    requires OtherCloses(h, c, now, k)
    ensures k in LiveAfterClose(h, c, now)
    ensures |Swept(Applied(h, Close(c, now)), now).sess| <= MAX_SESSIONS
  {
    SubsetSize(Swept(Applied(h, Close(c, now)), now).sess.Keys, h.sess.Keys);
  }

  lemma {:induction false} KeptUnderCeiling(h: Handles, c: string, now: int, k: string, h': Handles)
    requires OtherCloses(h, c, now, k) && k in LiveAfterClose(h, c, now)
    requires |NotOlder(LiveAfterClose(h, c, now), k)| <= MAX_OPERATIONS && Next(h, Close(c, now), h')
    ensures k in h'.ops
  {
    StaysLive(h, c, now, k);
    var pre := Applied(h, Close(c, now));
    var mid :| ReapedVia(pre, now, mid, h');
    TrimKeepsNewest(LiveAfterClose(h, c, now), mid, k);
    SubsetSize(h'.sess.Keys, Swept(pre, now).sess.Keys);
  }

  lemma {:induction false} EvictedOverCeiling(h: Handles, c: string, now: int, k: string) returns (h': Handles)
    requires OtherCloses(h, c, now, k) && k in LiveAfterClose(h, c, now)
    requires |NotOlder(LiveAfterClose(h, c, now), k)| > MAX_OPERATIONS
    ensures Next(h, Close(c, now), h') && k !in h'.ops
  {
    StaysLive(h, c, now, k);
    var pre, live := Applied(h, Close(c, now)), LiveAfterClose(h, c, now);
    SubsetSize(NotOlder(live, k), live.Keys);
    var mid := EvictWith(live, k, |live| - MAX_OPERATIONS);
    var s := Swept(pre, now);
    h' := Handles(s.sess, WithoutOpsOf(mid, s.sess.Keys - s.sess.Keys));
    assert ReapedVia(pre, now, mid, h');
  }

  // A history in which that happens: one session stores as many results as the ceiling allows, a
  // metadata result is inserted and polled, and another session closes.

  lemma Extended(r: History, e: Event, h: Handles) returns (r': History)
    requires IsHistory(r) && var last := r.states[|r.events|]; Fresh(last, e) && Next(last, e, h)
    ensures IsHistory(r') && r'.events == r.events + [e] && r'.states == r.states + [h]
    ensures |r'.states| == |r'.events| + 1
  {
    hide Next, Fresh;
    r' := History(r.states + [h], r.events + [e]);
    forall i | 0 <= i < |r'.events|
      ensures Fresh(r'.states[i], r'.events[i]) && Next(r'.states[i], r'.events[i], r'.states[i + 1])
    {
      if i < |r.events| {
        assert Next(r.states[i], r.events[i], r.states[i + 1]);
      }
    }
  }

  ghost function StoredOps(t: int, n: nat): Operations
  {
    if n == 0 then map[]
    else StoredOps(t, n - 1)[Decimal.Format(n - 1) := Operation(Some(Columns.EMPTY_TABLE), "", "a", t)]
  }

  ghost function TwoSessions(t: int): Sessions { map["a" := Session("w", t), "b" := Session("w", t)] }

  lemma {:induction false} StoredOpsAre(t: int, n: nat)
    ensures forall i: nat :: Decimal.Format(i) in StoredOps(t, n) <==> i < n
    ensures |StoredOps(t, n)| == n
    ensures forall k | k in StoredOps(t, n) :: StoredOps(t, n)[k] == Operation(Some(Columns.EMPTY_TABLE), "", "a", t)
  {
    hide Decimal.Format;
    if n > 0 {
      StoredOpsAre(t, n - 1);
      forall i: nat ensures Decimal.Format(i) == Decimal.Format(n - 1) <==> i == n - 1 {
        if Decimal.Format(i) == Decimal.Format(n - 1) {
          Decimal.FormatInjective(i, n - 1);
        }
      }
      assert StoredOps(t, n).Keys == StoredOps(t, n - 1).Keys + {Decimal.Format(n - 1)};
      assert |StoredOps(t, n)| == |StoredOps(t, n).Keys| && |StoredOps(t, n - 1)| == |StoredOps(t, n - 1).Keys|;
    }
  }

  /** Every statement that finishes was begun just before. */
  predicate Begun(events: seq<Event>)
  {
    forall i | 0 <= i < |events| && events[i].Finish? ::
      i > 0 && events[i - 1].Begin? && events[i - 1].key == events[i].op.sess
  }

  lemma {:induction false} StoringHistory(t: int, n: nat) returns (r: History)
    requires n <= MAX_OPERATIONS
    ensures IsHistory(r) && r.states[|r.events|] == Handles(TwoSessions(t), StoredOps(t, n)) && Begun(r.events)
  {
    hide Reaped;
    if n == 0 {
      r := History([Handles(map[], map[])], []);
      NothingToReap(Handles(map["a" := Session("w", t)], map[]), t, Handles(map["a" := Session("w", t)], map[]));
      r := Extended(r, Open("a", "w", t, t), Handles(map["a" := Session("w", t)], map[]));
      NothingToReap(Handles(TwoSessions(t), map[]), t, Handles(TwoSessions(t), map[]));
      r := Extended(r, Open("b", "w", t, t), Handles(TwoSessions(t), map[]));
    } else {
      r := StoringHistory(t, n - 1);
      r := StoreOne(r, t, n);
    }
  }

  /** One more statement of the first session, begun and finished. */
  lemma {:induction false} StoreOne(r: History, t: int, n: nat) returns (r': History)
    requires 0 < n <= MAX_OPERATIONS && IsHistory(r) && Begun(r.events)
    requires r.states[|r.events|] == Handles(TwoSessions(t), StoredOps(t, n - 1))
    ensures IsHistory(r') && r'.states[|r'.events|] == Handles(TwoSessions(t), StoredOps(t, n)) && Begun(r'.events)
  {
    hide Reaped, IsHistory, StoredOps, Begun, Decimal.Format, Swept;
    StoredOpsAre(t, n - 1);
    StoredOpsAre(t, n);
    StoredMore(t, n);
    var was, h := Handles(TwoSessions(t), StoredOps(t, n - 1)), Handles(TwoSessions(t), StoredOps(t, n));
    assert Applied(was, Begin("a", t)) == was;
    NothingToReap(h, t, h);
    r' := Extended(r, Begin("a", t), was);
    var f := Finish(Decimal.Format(n - 1), Operation(Some(Columns.EMPTY_TABLE), "", "a", t), t);
    r' := Extended(r', f, h);
    BegunMore(r.events, Begin("a", t), f);
  }

  lemma StoredMore(t: int, n: nat)
    requires n > 0
    ensures StoredOps(t, n) ==
      StoredOps(t, n - 1)[Decimal.Format(n - 1) := Operation(Some(Columns.EMPTY_TABLE), "", "a", t)]
  {
  }

  lemma BegunMore(events: seq<Event>, b: Event, f: Event)
    requires Begun(events) && b.Begin? && f.Finish? && f.op.sess == b.key
    ensures Begun(events + [b] + [f])
  {
    assert (events + [b] + [f])[|events|] == b && (events + [b] + [f])[|events| + 1] == f;
  }

  ghost function PolledOps(t: int): Operations
  {
    StoredOps(t, MAX_OPERATIONS)[Decimal.Format(MAX_OPERATIONS) := Operation(Some(Columns.EMPTY_TABLE), "", "", t)]
  }

  lemma NowOverCeiling(t: int)
    ensures
      var h, k := Handles(TwoSessions(t), PolledOps(t)), Decimal.Format(0);
      && OtherCloses(h, "b", t, k) && h.ops[k].sess == "a" && k in LiveAfterClose(h, "b", t)
      && |NotOlder(LiveAfterClose(h, "b", t), k)| > MAX_OPERATIONS
  {
    hide StoredOps, Decimal.Format;
    var stored, m, k := StoredOps(t, MAX_OPERATIONS), Decimal.Format(MAX_OPERATIONS), Decimal.Format(0);
    StoredOpsAre(t, MAX_OPERATIONS);
    assert LiveAfterClose(Handles(TwoSessions(t), PolledOps(t)), "b", t) == PolledOps(t);
    assert NotOlder(PolledOps(t), k) == stored.Keys + {m};
    assert |stored.Keys + {m}| == |stored.Keys| + 1;
    assert |TwoSessions(t)| == |TwoSessions(t).Keys| && TwoSessions(t).Keys == {"a", "b"};
  }

  lemma {:induction false} PolledHistory(t: int) returns (r: History)
    ensures IsHistory(r) && Begun(r.events) && r.states[|r.events|] == Handles(TwoSessions(t), PolledOps(t))
  {
    hide Reaped, StoredOps, IsHistory, Swept;
    var n := MAX_OPERATIONS;
    var m, meta := Decimal.Format(n), Operation(Some(Columns.EMPTY_TABLE), "", "", 0);
    var stored := StoredOps(t, n);
    StoredOpsAre(t, n);
    r := StoringHistory(t, n);
    r := Extended(r, Meta(m, meta), Handles(TwoSessions(t), stored[m := meta]));
    assert stored[m := meta][m := meta.(seen := t)] == PolledOps(t);
    r := Extended(r, Poll(m, t), Handles(TwoSessions(t), PolledOps(t)));
  }

  /** Closing another session can drop a result that is live, in a live session: two thousand and
      forty-eight results of one session and one polled metadata result are enough. */
  lemma {:induction false} ClosingAnotherSessionCanEvict(t: int) returns (r: History, k: string)
    ensures IsHistory(r) && Begun(r.events) && |r.events| > 0 && r.events[|r.events| - 1] == Close("b", t)
    ensures
      var h, h' := r.states[|r.events| - 1], r.states[|r.events|];
      OtherCloses(h, "b", t, k) && h.ops[k].sess == "a" && "a" in h.sess && k !in h'.ops
  {
    hide Reaped, StoredOps, IsHistory, Swept, PolledOps, NotOlder, LiveAfterClose;
    k := Decimal.Format(0);
    r := PolledHistory(t);
    var ops := PolledOps(t);
    NowOverCeiling(t);
    var h' := EvictedOverCeiling(Handles(TwoSessions(t), ops), "b", t, k);
    r := Extended(r, Close("b", t), h');
  }
}
