// One Build call: its batches, its steps for each id in the order a single
// build's go, and how each id ends.

module BuildCall {
  import opened Common
  import opened Rows
  import opened Batches
  import P = Plans

  type Id = string

  /** How an id ends: finished by its owner or removed with its row, with the
      follow-up its finish re-claimed, if any; cleared by a build that owns
      nothing; released by a failure or, owning nothing, dropped by one; or
      released with nothing done for it. */
  datatype How = Finished(next: FollowUp) | Removed(next: FollowUp) | Cleared | Released(backoff: bool) | Dropped
    | Unbuilt(backoff: bool)

  /** A call to the backend or the store for one id: a document's write, a nil
      version's delete, the edge sets, the Parents' marks, the drift check, the
      delete of everything, or the finish. */
  datatype Step = Write(version: Version) | Delete(version: Version) | Edges | Parents | Check | EraseAll | Close

  /** What failed for an id: its begin or a step. */
  datatype Cause = AtBegin | At(step: Step)

  /** What the call does for an id, in order: a call made, one that succeeded or
      failed, the follow-up a finish replied with, and the id's end, with
      whether the context had ended by then. */
  datatype Event =
    | Issued(id: Id, step: Step)
    | Acked(id: Id, step: Step)
    | Failed(id: Id, cause: Cause)
    | Replied(id: Id, next: FollowUp)
    | Ended(id: Id, how: How, over: bool)

  /** What an id's outcome was read from: the ids asked about with it, the plans'
      runs and whether its begin drew a positive Build Sequence. */
  datatype Evidence = Evidence(ids: seq<Id>, streams: seq<seq<P.Page>>, valid: bool)

  /** A begun id with its outcome; `valid` is a positive Build Sequence. */
  datatype Entry = Entry(id: Id, token: nat, valid: bool, outcome: P.Outcome)

  /** Nothing happens for an id after it has ended, so it ends at most once. */
  ghost predicate Quiet(log: seq<Event>) {
    forall i, j {:trigger log[i], log[j]} :: 0 <= i < j < |log| && log[i].Ended? ==> log[j].id != log[i].id
  }

  ghost predicate HasEnded(log: seq<Event>, id: Id) {
    exists i :: 0 <= i < |log| && log[i].Ended? && log[i].id == id
  }

  /** A plan the call runs for this version said so, in so many words. */
  ghost predicate PlanSaid(plans: seq<P.Plan>, e: Evidence, id: Id, v: Version, said: P.Said) {
    && |e.streams| == |plans|
    && exists k :: 0 <= k < |plans| && plans[k].active && plans[k].version == v && P.Explicit(e.streams[k], id, said)
  }

  ghost predicate EveryPlanSaidNil(plans: seq<P.Plan>, e: Evidence, id: Id) {
    && |e.streams| == |plans|
    && forall k :: 0 <= k < |plans| && plans[k].active ==> P.Explicit(e.streams[k], id, P.SaidNil)
  }

  /** Every active plan answered for the id, with a document or a nil. */
  ghost predicate EveryPlanAnswered(plans: seq<P.Plan>, e: Evidence, id: Id) {
    && |e.streams| == |plans|
    && forall k {:trigger plans[k]} :: 0 <= k < |plans| && plans[k].active ==>
         P.Explicit(e.streams[k], id, P.SaidDoc) || P.Explicit(e.streams[k], id, P.SaidNil)
  }

  /** Some active plan answered with an error, or not at all. */
  ghost predicate SomePlanFailed(plans: seq<P.Plan>, e: Evidence, id: Id) {
    && |e.streams| == |plans|
    && exists k :: 0 <= k < |plans| && plans[k].active && P.AnswerIs(P.ItemsOf(e.streams[k]), id, P.SaidErr)
  }

  ghost predicate AllClean(plans: seq<P.Plan>, e: Evidence) {
    |e.streams| == |plans| && P.AllClean(plans, e.streams, e.ids)
  }

  ghost predicate SomeActive(plans: seq<P.Plan>) {
    exists k :: 0 <= k < |plans| && plans[k].active
  }

  /** The id is gone at source. */
  ghost predicate Gone(plans: seq<P.Plan>, evidence: map<Id, Evidence>, id: Id) {
    id in evidence && evidence[id].valid && SomeActive(plans) && EveryPlanSaidNil(plans, evidence[id], id)
  }

  /** The id is to be built: every plan answered, and not all of them nil. */
  ghost predicate Stands(plans: seq<P.Plan>, evidence: map<Id, Evidence>, id: Id) {
    && id in evidence && evidence[id].valid && EveryPlanAnswered(plans, evidence[id], id)
    && (SomeActive(plans) ==> !EveryPlanSaidNil(plans, evidence[id], id))
  }

  /** The id may fail: a call for it failed, a plan's run about its group did,
      a plan did not answer for it, or its begin drew no sequence. */
  ghost predicate MayFail(plans: seq<P.Plan>, evidence: map<Id, Evidence>, log: seq<Event>, id: Id) {
    || (exists c :: Failed(id, c) in log)
    || (id in evidence && (!evidence[id].valid || SomePlanFailed(plans, evidence[id], id)))
    || (id in evidence && id in evidence[id].ids && !AllClean(plans, evidence[id]))
  }

  /** Every version's document that the plans returned has been written. */
  ghost predicate DocsWritten(plans: seq<P.Plan>, e: Evidence, id: Id, log: seq<Event>) {
    && |e.streams| == |plans|
    && forall k {:trigger plans[k]} ::
         0 <= k < |plans| && plans[k].active && P.Explicit(e.streams[k], id, P.SaidDoc) ==>
      Acked(id, Write(plans[k].version)) in log
  }

  /** Every version's document whose plan returned nil has been deleted. */
  ghost predicate NilsDeleted(plans: seq<P.Plan>, e: Evidence, id: Id, log: seq<Event>) {
    && |e.streams| == |plans|
    && forall k {:trigger plans[k]} ::
         0 <= k < |plans| && plans[k].active && P.Explicit(e.streams[k], id, P.SaidNil) ==>
      Acked(id, Delete(plans[k].version)) in log
  }

  ghost predicate Unseen(log: seq<Event>, id: Id) {
    forall i {:trigger log[i]} :: 0 <= i < |log| ==> log[i].id != id
  }

  /** An event has its ground, given what came before. An id that stands is
      written as its plans answered; the deletes follow the writes, the edges
      the deletes, the Parents' marks the edges, the drift check the marks, and
      its finish the check, each succeeded. An id gone at source is deleted whole and removed. An id fails
      only on a failure of its own, and is released with a backoff exactly when
      the context had not ended. An end fits what the id owned. */
  ghost predicate Grounded(
      plans: seq<P.Plan>, tokens: map<Id, nat>, evidence: map<Id, Evidence>, log: seq<Event>, e: Event)
  {
    match e
    case Issued(id, Write(v)) => Stands(plans, evidence, id) && PlanSaid(plans, evidence[id], id, v, P.SaidDoc)
    case Issued(id, Delete(v)) =>
      && Stands(plans, evidence, id) && PlanSaid(plans, evidence[id], id, v, P.SaidNil)
      && DocsWritten(plans, evidence[id], id, log)
    case Issued(id, Edges) =>
      && Stands(plans, evidence, id) && DocsWritten(plans, evidence[id], id, log)
      && NilsDeleted(plans, evidence[id], id, log)
    case Issued(id, Parents) => Stands(plans, evidence, id) && Acked(id, Edges) in log
    case Issued(id, Check) => Stands(plans, evidence, id) && Acked(id, Parents) in log
    case Issued(id, EraseAll) => Gone(plans, evidence, id)
    case Issued(id, Close) => Acked(id, Check) in log || Acked(id, EraseAll) in log
    case Acked(id, step) => Issued(id, step) in log
    case Failed(id, At(step)) => Issued(id, step) in log
    case Failed(id, AtBegin) => Unseen(log, id)
    case Replied(id, next) => Issued(id, Close) in log && (next.token != 0 ==> id in tokens && tokens[id] != 0)
    case Ended(id, how, over) =>
      && (how.Finished? ==> Stands(plans, evidence, id) && Acked(id, Check) in log && Replied(id, how.next) in log)
      && (how.Cleared? ==> Stands(plans, evidence, id) && Acked(id, Check) in log && Issued(id, Close) in log)
      && (how.Removed? ==>
            Gone(plans, evidence, id) && Acked(id, EraseAll) in log && Replied(id, how.next) in log)
      && (how.Released? || how.Dropped? ==> MayFail(plans, evidence, log, id))
      && (how.Released? || how.Unbuilt? ==> how.backoff == !over)
      && (how.Unbuilt? ==> Unseen(log, id))
      && if id in tokens && tokens[id] != 0 then
           how.Finished? || how.Removed? || how.Released? || how.Unbuilt?
         else
           how.Cleared? || how.Removed? || how.Dropped?
  }

  function TokenOf(tokens: map<Id, nat>, id: Id): (t: nat)
    ensures t != 0 <==> id in tokens && tokens[id] != 0
    ensures id in tokens ==> t == tokens[id]
  {
    if id in tokens then tokens[id] else 0
  }

  /** The follow-ups of one kind the finishes re-claimed. */
  ghost function HandedOn(typ: string, log: seq<Event>, deleted: bool): multiset<Owned> {
    if log == [] then multiset{} else HandedOn(typ, log[..|log| - 1], deleted) + Next(typ, log[|log| - 1], deleted)
  }

  ghost function Next(typ: string, e: Event, deleted: bool): multiset<Owned> {
    if e.Ended? && (e.how.Finished? || e.how.Removed?) && e.how.next.token != 0 && e.how.next.deleted == deleted then
      multiset{Owned(Resource(typ, e.id), e.how.next.token)}
    else multiset{}
  }

  /** Every follow-up is with the pool or still to go. */
  ghost predicate Books(typ: string, log: seq<Event>, deletes: seq<Owned>, submitted: seq<Owned>, followUps: seq<Owned>)
  {
    && HandedOn(typ, log, true) == multiset(deletes)
    && HandedOn(typ, log, false) == multiset(submitted) + multiset(followUps)
    && forall o :: o in followUps ==> o.token != 0
  }

  lemma BooksNone(typ: string)
    ensures Books(typ, [], [], [], [])
  {
  }

  lemma BooksSame(
      typ: string, log: seq<Event>, deletes: seq<Owned>, submitted: seq<Owned>, followUps: seq<Owned>, e: Event)
    requires Books(typ, log, deletes, submitted, followUps) && !(e.Ended? && (e.how.Finished? || e.how.Removed?))
    ensures Books(typ, log + [e], deletes, submitted, followUps)
  {
    HandedMore(typ, log, e);
  }

  lemma BooksSent(
      typ: string, log: seq<Event>, deletes: seq<Owned>, submitted: seq<Owned>, followUps: seq<Owned>, all: seq<Owned>)
    requires Books(typ, log, deletes, submitted, followUps) && all == ByTypes(followUps, TypesOf(followUps))
    ensures Books(typ, log, deletes, submitted + all, [])
  {
    KeptAll(followUps, all);
    hide HandedOn;
  }

  lemma BooksClosed(typ: string, log: seq<Event>, deletes: seq<Owned>, submitted: seq<Owned>)
    requires Books(typ, log, deletes, submitted, [])
    ensures HandedOn(typ, log, true) == multiset(deletes) && HandedOn(typ, log, false) == multiset(submitted)
  {
  }

  lemma BooksMore(
      typ: string, log: seq<Event>, deletes: seq<Owned>, submitted: seq<Owned>, followUps: seq<Owned>, e: Event)
    requires Books(typ, log, deletes, submitted, followUps) && e.Ended? && (e.how.Finished? || e.how.Removed?)
    ensures var o, next := Owned(Resource(typ, e.id), e.how.next.token), e.how.next;
      Books(typ, log + [e], deletes + if next.token != 0 && next.deleted then [o] else [], submitted,
        followUps + if next.token != 0 && !next.deleted then [o] else [])
  {
    HandedMore(typ, log, e);
    hide HandedOn;
    var o, next := Owned(Resource(typ, e.id), e.how.next.token), e.how.next;
    assert deletes + [] == deletes && followUps + [] == followUps;
  }

  lemma HandedMore(typ: string, log: seq<Event>, e: Event)
    ensures forall deleted :: HandedOn(typ, log + [e], deleted) == HandedOn(typ, log, deleted) + Next(typ, e, deleted)
  {
    assert (log + [e])[..|log|] == log;
  }

  /** A failure met the context ended. */
  ghost predicate CutShort(log: seq<Event>) {
    exists i :: 0 <= i < |log| && log[i].Ended? && log[i].over && (log[i].how.Released? || log[i].how.Dropped?)
  }

  ghost predicate NoneUnbuilt(log: seq<Event>) {
    forall i {:trigger log[i]} :: 0 <= i < |log| && log[i].Ended? ==> !log[i].how.Unbuilt?
  }

  /** A context that has ended stays ended. */
  ghost predicate Timed(log: seq<Event>) {
    forall i, j {:trigger log[i], log[j]} ::
      0 <= i < j < |log| && log[i].Ended? && log[j].Ended? && log[i].over ==> log[j].over
  }

  /** What the call's flags say of its record: whether the context has ended,
      whether a failure met it ended, and whether ids were left unbuilt. */
  ghost predicate Flags(log: seq<Event>, over: bool, cancelled: bool, left: bool) {
    && (cancelled <==> CutShort(log)) && Timed(log)
    && (forall i {:trigger log[i]} :: 0 <= i < |log| && log[i].Ended? && log[i].over ==> over)
    && (left || NoneUnbuilt(log))
  }

  lemma FlagsMore(log: seq<Event>, e: Event, over: bool, cancelled: bool, left: bool)
    requires Flags(log, over, cancelled, left)
    requires e.Ended? ==> e.over == over && (e.how.Unbuilt? ==> left)
    ensures Flags(log + [e], over, cancelled || (over && e.Ended? && (e.how.Released? || e.how.Dropped?)), left)
  {
    var now := log + [e];
    if CutShort(log) {
      var i :| 0 <= i < |log| && log[i].Ended? && log[i].over && (log[i].how.Released? || log[i].how.Dropped?);
      assert now[i] == log[i];
    }
    if e.Ended? && e.over { assert now[|log|] == e; }
  }

  ghost predicate AllGrounded(plans: seq<P.Plan>, tokens: map<Id, nat>, evidence: map<Id, Evidence>, log: seq<Event>) {
    forall i {:trigger log[i]} :: 0 <= i < |log| ==> Grounded(plans, tokens, evidence, log[..i], log[i])
  }

  ghost predicate DoneIs(log: seq<Event>, done: set<Id>) {
    forall id {:trigger id in done} :: id in done <==> HasEnded(log, id)
  }

  ghost predicate Sound(
      plans: seq<P.Plan>, tokens: map<Id, nat>, evidence: map<Id, Evidence>, log: seq<Event>, done: set<Id>)
  {
    Quiet(log) && AllGrounded(plans, tokens, evidence, log) && DoneIs(log, done)
  }

  /** Only the ids of `ids` were touched. */
  ghost predicate Adds(was: seq<Event>, now: seq<Event>, ids: set<Id>) {
    was <= now && forall i {:trigger now[i]} :: |was| <= i < |now| ==> now[i].id in ids
  }

  lemma AddsOn(a: seq<Event>, b: seq<Event>, c: seq<Event>, ids: set<Id>, more: set<Id>)
    requires Adds(a, b, ids) && Adds(b, c, more) && more <= ids
    ensures Adds(a, c, ids)
  {
    assert forall i :: 0 <= i < |b| ==> c[i] == b[i];
  }

  lemma EmitSound(
      plans: seq<P.Plan>, tokens: map<Id, nat>, evidence: map<Id, Evidence>, log: seq<Event>, done: set<Id>, e: Event)
    requires Sound(plans, tokens, evidence, log, done) && Grounded(plans, tokens, evidence, log, e) && e.id !in done
    ensures Sound(plans, tokens, evidence, log + [e], if e.Ended? then done + {e.id} else done)
    ensures Adds(log, log + [e], {e.id})
  {
    hide Grounded;
    var log', done' := log + [e], if e.Ended? then done + {e.id} else done;
    forall i | 0 <= i < |log'| ensures Grounded(plans, tokens, evidence, log'[..i], log'[i]) {
      if i < |log| {
        assert log'[..i] == log[..i] && Grounded(plans, tokens, evidence, log[..i], log[i]);
      } else {
        assert log'[..i] == log;
      }
    }
    forall i, j | 0 <= i < j < |log'| && log'[i].Ended? ensures log'[j].id != log'[i].id {
      if j == |log| { assert log[i].Ended? ==> HasEnded(log, log[i].id); }
    }
    forall id ensures id in done' <==> HasEnded(log', id) {
      if HasEnded(log, id) {
        var i :| 0 <= i < |log| && log[i].Ended? && log[i].id == id;
        assert log'[i] == log[i];
      }
      if e.Ended? && e.id == id { assert log'[|log|] == e; }
    }
  }

  /** An id's evidence may change only while nothing rests on it. */
  lemma EvidenceSound(
      plans: seq<P.Plan>, tokens: map<Id, nat>, evidence: map<Id, Evidence>, log: seq<Event>, done: set<Id>,
      now: map<Id, Evidence>)
    requires Sound(plans, tokens, evidence, log, done)
    requires forall i {:trigger log[i]} :: 0 <= i < |log| ==>
      (log[i].id in now <==> log[i].id in evidence) && (log[i].id in now ==> now[log[i].id] == evidence[log[i].id])
    ensures Sound(plans, tokens, now, log, done)
  {
    forall i | 0 <= i < |log| ensures Grounded(plans, tokens, now, log[..i], log[i]) {
      assert Grounded(plans, tokens, evidence, log[..i], log[i]);
    }
  }

  ghost function EntryIds(entries: seq<Entry>): set<Id> {
    set e | e in entries :: e.id
  }

  ghost predicate DistinctEntries(entries: seq<Entry>) {
    forall i, j :: 0 <= i < j < |entries| ==> entries[i].id != entries[j].id
  }

  ghost predicate Complete(plans: seq<P.Plan>, w: Evidence, e: Entry) {
    |w.streams| == |plans| && forall k {:trigger plans[k]} :: 0 <= k < |plans| && plans[k].active ==>
      && (P.Explicit(w.streams[k], e.id, P.SaidDoc) ==> plans[k].version in e.outcome.docs)
      && (P.Explicit(w.streams[k], e.id, P.SaidNil) ==> plans[k].version in e.outcome.missing)
  }

  /** An entry's outcome is what the plans of its evidence said, all of it. */
  ghost predicate Answered(plans: seq<P.Plan>, evidence: map<Id, Evidence>, e: Entry) {
    && e.id in evidence && e.valid == evidence[e.id].valid
    && (e.outcome.err ==> SomePlanFailed(plans, evidence[e.id], e.id))
    && (!e.outcome.err ==>
         && EveryPlanAnswered(plans, evidence[e.id], e.id)
         && (forall v {:trigger v in e.outcome.docs} ::
               v in e.outcome.docs ==> PlanSaid(plans, evidence[e.id], e.id, v, P.SaidDoc))
         && (forall v {:trigger v in e.outcome.missing} ::
               v in e.outcome.missing ==> PlanSaid(plans, evidence[e.id], e.id, v, P.SaidNil))
         && (e.outcome.docs == [] && e.outcome.missing != [] <==>
               SomeActive(plans) && EveryPlanSaidNil(plans, evidence[e.id], e.id))
         && Complete(plans, evidence[e.id], e))
  }

  class BatchBuild {
    const typ: string
    const plans: seq<P.Plan>
    /** The call's owner tokens; an id without one owns nothing. */
    const tokens: map<Id, nat>

    /** The entries that have finished or failed. */
    var done: set<Id>
    var followUps: seq<Owned>
    /** What has been handed to the pool, for deletes and for builds. */
    var deletes: seq<Owned>
    var submitted: seq<Owned>
    /** The call's context has ended, and a failure met it ended. */
    var over: bool
    var cancelled: bool

    ghost var log: seq<Event>
    ghost var evidence: map<Id, Evidence>
    /** Ids were released unbuilt. */
    ghost var left: bool
    /** The ids of the batch whose begin drew a positive Build Sequence. */
    ghost var drawn: set<Id>

    ghost predicate Valid()
      reads this
    {
      && Sound(plans, tokens, evidence, log, done)
      && Books(typ, log, deletes, submitted, followUps)
      && Flags(log, over, cancelled, left)
    }

    constructor (typ: string, plans: seq<P.Plan>, tokens: map<Id, nat>)
      ensures Valid() && this.typ == typ && this.plans == plans && this.tokens == tokens
      ensures log == [] && done == {} && deletes == submitted == followUps == [] && evidence == map[] && !left
    {
      this.typ, this.plans, this.tokens := typ, plans, tokens;
      done, followUps, deletes, submitted, over, cancelled := {}, [], [], [], false, false;
      log, evidence, left, drawn := [], map[], false, {};
      BooksNone(typ);
    }

    /** One call to the store, the backend or the plans; the context may end. */
    method Call() returns (ok: bool)
      requires Valid()
      modifies this`over
      ensures Valid() && (old(over) ==> over)
    {
      hide Sound, Books;
      ok := *;
      var ended: bool := *;
      over := over || ended;
    }

    ghost method Emit(e: Event)
      requires Valid() && Grounded(plans, tokens, evidence, log, e) && e.id !in done && !e.Ended?
      modifies this`log
      ensures Valid() && log == old(log) + [e] && Adds(old(log), log, {e.id})
    {
      hide Sound, Grounded, Adds, Flags, Books;
      EmitSound(plans, tokens, evidence, log, done, e);
      BooksSame(typ, log, deletes, submitted, followUps, e);
      FlagsMore(log, e, over, cancelled, left);
      log := log + [e];
    }

    /** Ends an id, without a follow-up. */
    method End(id: Id, how: How)
      requires Valid() && Grounded(plans, tokens, evidence, log, Ended(id, how, over)) && id !in done
      requires !how.Finished? && !how.Removed? && (how.Unbuilt? ==> left)
      modifies this`log, this`done, this`cancelled
      ensures Valid() && done == old(done) + {id} && Adds(old(log), log, {id})
      ensures log == old(log) + [Ended(id, how, over)]
    {
      hide Sound, Grounded, Adds, Flags, Books;
      ghost var e := Ended(id, how, over);
      EmitSound(plans, tokens, evidence, log, done, e);
      BooksSame(typ, log, deletes, submitted, followUps, e);
      FlagsMore(log, e, over, cancelled, left);
      if over && (how.Released? || how.Dropped?) {
        cancelled := true;
      }
      log := log + [e];
      done := done + {id};
    }

    /** Ends an id and takes on its finish's follow-up: a delete goes out now, a
        build with the call's others. */
    method EndOn(id: Id, how: How)
      requires Valid() && Grounded(plans, tokens, evidence, log, Ended(id, how, over)) && id !in done
      requires how.Finished? || how.Removed?
      modifies this`log, this`done, this`followUps, this`deletes, this`submitted
      ensures Valid() && done == old(done) + {id} && Adds(old(log), log, {id})
    {
      hide Sound, Grounded, Adds, Flags, Books;
      ghost var e := Ended(id, how, over);
      EmitSound(plans, tokens, evidence, log, done, e);
      BooksMore(typ, log, deletes, submitted, followUps, e);
      FlagsMore(log, e, over, cancelled, left);
      log := log + [e];
      done := done + {id};
      TakeOn(Resource(typ, id), how.next);
    }

    method TakeOn(res: Resource, next: FollowUp)
      modifies this`followUps, this`deletes
      ensures deletes == old(deletes) + if next.token != 0 && next.deleted then [Owned(res, next.token)] else []
      ensures followUps == old(followUps) + if next.token != 0 && !next.deleted then [Owned(res, next.token)] else []
    {
      if next.token == 0 {
        return;
      }
      if next.deleted {
        deletes := deletes + [Owned(res, next.token)];
      } else {
        followUps := followUps + [Owned(res, next.token)];
      }
    }

    /** One call for one id, and whether it succeeded. */
    method Do(id: Id, step: Step) returns (ok: bool)
      requires Valid() && Grounded(plans, tokens, evidence, log, Issued(id, step)) && id !in done
      modifies this`log, this`over
      ensures Valid() && Adds(old(log), log, {id}) && Issued(id, step) in log
      ensures if ok then Acked(id, step) in log else Failed(id, At(step)) in log
    {
      hide Sound, Adds, Flags, Books;
      Emit(Issued(id, step));
      ghost var was := log;
      assert log[|log| - 1] == Issued(id, step);
      ok := Call();
      ghost var e := if ok then Acked(id, step) else Failed(id, At(step));
      Emit(e);
      AddsOn(old(log), was, log, {id}, {id});
      assert log[|log| - 1] == e && log[|was| - 1] == Issued(id, step);
    }

    /** The finish of one id, and the follow-up it re-claimed. */
    method Reply(id: Id) returns (ok: bool, next: FollowUp)
      requires Valid() && Grounded(plans, tokens, evidence, log, Issued(id, Close)) && id !in done
      modifies this`log, this`over
      ensures Valid() && Adds(old(log), log, {id}) && Issued(id, Close) in log
      ensures if ok then Replied(id, next) in log else Failed(id, At(Close)) in log
    {
      hide Sound, Adds, Flags, Books;
      Emit(Issued(id, Close));
      ghost var was := log;
      assert log[|log| - 1] == Issued(id, Close);
      ok := Call();
      next := *;
      if TokenOf(tokens, id) == 0 {
        next := NoFollowUp;
      }
      ghost var e := if ok then Replied(id, next) else Failed(id, At(Close));
      Emit(e);
      AddsOn(old(log), was, log, {id}, {id});
      assert log[|log| - 1] == e && log[|was| - 1] == Issued(id, Close);
    }

    /** Fails an id: an owned one is released, with a backoff unless the context
        has ended. */
    method Fail(id: Id)
      requires Valid() && id !in done && MayFail(plans, evidence, log, id)
      modifies this`log, this`done, this`cancelled
      ensures Valid() && done == old(done) + {id} && Adds(old(log), log, {id})
    {
      hide Sound, Adds, Flags, Books, MayFail;
      End(id, if TokenOf(tokens, id) == 0 then Dropped else Released(!over));
    }

    /** Fails entries after one error. */
    method FailMany(ids: seq<Id>)
      requires
        Valid() && (forall id :: id in ids ==> id !in done) && forall i, j :: 0 <= i < j < |ids| ==> ids[i] != ids[j]
      requires forall id :: id in ids ==> MayFail(plans, evidence, log, id)
      modifies this`log, this`done, this`cancelled
      ensures Valid() && done == old(done) + IdSet(ids) && Adds(old(log), log, IdSet(ids))
    {
      hide Sound, Adds, Flags, Books, MayFail;
      ghost var all := IdSet(ids);
      AddsNone(log, all);
      for i := 0 to |ids|
        invariant Valid() && done == old(done) + IdSet(ids[..i]) && Adds(old(log), log, all)
        invariant forall id :: id in ids ==> MayFail(plans, evidence, log, id)
      {
        ghost var was := log;
        assert ids[..i + 1] == ids[..i] + [ids[i]];
        Fail(ids[i]);
        AddsOn(old(log), was, log, all, {ids[i]});
        MayLater(plans, evidence, was, log, all, {ids[i]});
      }
      assert ids[..|ids|] == ids;
    }

    /** BeginBuilds of a batch, made while the context lasts: the ids whose Build
        Sequence is positive. */
    method BeginAll(ids: seq<Id>) returns (ok: bool, valid: set<Id>)
      requires Valid() && !over && forall id :: id in ids ==> id !in done && Unseen(log, id)
      requires forall i, j :: 0 <= i < j < |ids| ==> ids[i] != ids[j]
      modifies this`log, this`over, this`drawn
      ensures Valid() && Adds(old(log), log, IdSet(ids))
      ensures drawn == if ok then valid else {}
      ensures if ok then log == old(log) else forall id :: id in ids ==> MayFail(plans, evidence, log, id)
    {
      hide Sound, Adds, Flags, Books, MayFail;
      AddsNone(log, IdSet(ids));
      ok := Call();
      valid := *;
      drawn := if ok then valid else {};
      if !ok {
        NoneBegun(ids);
      }
    }

    ghost method NoneBegun(ids: seq<Id>)
      requires Valid() && forall id :: id in ids ==> id !in done && Unseen(log, id)
      requires forall i, j :: 0 <= i < j < |ids| ==> ids[i] != ids[j]
      modifies this`log
      ensures Valid() && Adds(old(log), log, IdSet(ids)) && forall id :: id in ids ==> MayFail(plans, evidence, log, id)
    {
      hide Sound, Adds, Flags, Books;
      ghost var all := IdSet(ids);
      AddsNone(log, all);
      for i := 0 to |ids|
        invariant Valid() && Adds(old(log), log, all)
        invariant forall k :: 0 <= k < i ==> Failed(ids[k], AtBegin) in log
        invariant forall k :: i <= k < |ids| ==> Unseen(log, ids[k])
      {
        ghost var was := log;
        Emit(Failed(ids[i], AtBegin));
        AddsOn(old(log), was, log, all, {ids[i]});
      }
    }

    /** A batch whose begin or plan call failed. One id fails as itself; otherwise
        the owned ids are released together, without a backoff once the
        context has ended. */
    method FailBatch(ids: seq<Id>)
      requires
        Valid() && (forall id :: id in ids ==> id !in done) && forall i, j :: 0 <= i < j < |ids| ==> ids[i] != ids[j]
      requires forall id :: id in ids ==> MayFail(plans, evidence, log, id)
      modifies this`log, this`done, this`cancelled
      ensures Valid() && done == old(done) + IdSet(ids) && Adds(old(log), log, IdSet(ids))
    {
      hide Sound, Adds, Flags, Books, MayFail;
      if |ids| == 1 {
        Fail(ids[0]);
        return;
      }
      FailMany(ids);
    }

    /** Deletes an id every active plan found gone, and finishes it with its row. */
    method FinishGone(e: Entry)
      requires Valid() && e.id !in done && e.token == TokenOf(tokens, e.id) && Gone(plans, evidence, e.id)
      modifies this`log, this`done, this`cancelled, this`followUps, this`deletes, this`submitted, this`over
      ensures Valid() && done == old(done) + {e.id} && Adds(old(log), log, {e.id})
    {
      hide Sound, Adds, Gone, Flags, Books;
      var ok := Do(e.id, EraseAll);
      var next := NoFollowUp;
      ghost var was := log;
      if ok {
        ok, next := Reply(e.id);
        AddsOn(old(log), was, log, {e.id}, {e.id});
        StillIn(was, log, {e.id});
        was := log;
      }
      if !ok {
        Fail(e.id);
        AddsOn(old(log), was, log, {e.id}, {e.id});
        return;
      }
      EndOn(e.id, Removed(next));
      AddsOn(old(log), was, log, {e.id}, {e.id});
    }

    /** Ends a built id's build. */
    method Finish(e: Entry)
      requires Valid() && e.id !in done && e.token == TokenOf(tokens, e.id) && Acked(e.id, Check) in log
      requires Stands(plans, evidence, e.id)
      modifies this`log, this`done, this`cancelled, this`followUps, this`deletes, this`submitted, this`over
      ensures Valid() && done == old(done) + {e.id} && Adds(old(log), log, {e.id})
    {
      hide Sound, Adds, Stands, Flags, Books;
      var ok, next := Reply(e.id);
      ghost var was := log;
      StillIn(old(log), log, {e.id});
      if e.token == 0 {
        End(e.id, Cleared);
        AddsOn(old(log), was, log, {e.id}, {e.id});
        return;
      }
      if !ok {
        Fail(e.id);
        AddsOn(old(log), was, log, {e.id}, {e.id});
        return;
      }
      EndOn(e.id, Finished(next));
      AddsOn(old(log), was, log, {e.id}, {e.id});
    }

    /** What every step of buildOn needs of an entry, and what it keeps. */
    ghost predicate Serves(entries: seq<Entry>)
      reads this
    {
      && DistinctEntries(entries)
      && forall e :: e in entries ==>
           && e.token == TokenOf(tokens, e.id) && Answered(plans, evidence, e) && !e.outcome.err
           && Stands(plans, evidence, e.id)
    }

    /** 1. Fails the entries with an error, finishes those gone, and keeps the
        rest standing. */
    method SortOut(entries: seq<Entry>) returns (standing: seq<Entry>)
      requires Valid() && DistinctEntries(entries)
      requires
        forall e :: e in entries ==> e.token == TokenOf(tokens, e.id) && Answered(plans, evidence, e) && e.id !in done
      modifies this`log, this`done, this`cancelled, this`followUps, this`deletes, this`submitted, this`over
      ensures Valid() && Adds(old(log), log, EntryIds(entries))
      ensures Serves(standing) && (forall e :: e in standing ==> e in entries && e.id !in done)
      ensures done == old(done) + (EntryIds(entries) - EntryIds(standing))
    {
      hide Sound, Adds, Answered, Grounded, EveryPlanSaidNil, Stands, Gone, MayFail, Flags, Books;
      standing := [];
      ghost var all := EntryIds(entries);
      AddsNone(log, all);
      for i := 0 to |entries|
        invariant Valid() && Adds(old(log), log, all)
        invariant Serves(standing)
        invariant forall e :: e in standing ==> e in entries[..i] && e.id !in done
        invariant done == old(done) + (EntryIds(entries[..i]) - EntryIds(standing))
      {
        var e := entries[i];
        ghost var was := log;
        assert entries[..i + 1] == entries[..i] + [e] && e in entries;
        NewEntry(entries, i);
        SortedBy(plans, evidence, log, e);
        if e.outcome.err || !e.valid {
          Fail(e.id);
          AddsOn(old(log), was, log, all, {e.id});
        } else if e.outcome.docs == [] && e.outcome.missing != [] {
          FinishGone(e);
          AddsOn(old(log), was, log, all, {e.id});
        } else {
          standing := standing + [e];
        }
      }
      assert entries[..|entries|] == entries;
    }

    /** 2. One bulk write of every standing entry's documents, each rejected
        document failing its id, and a failed request every id it wrote. */
    method BulkWrite(standing: seq<Entry>)
      requires Valid() && Serves(standing) && forall e :: e in standing ==> e.id !in done
      modifies this`log, this`done, this`cancelled, this`over
      ensures Valid() && Adds(old(log), log, EntryIds(standing))
      ensures old(done) <= done <= old(done) + EntryIds(standing)
      ensures forall e :: e in standing && e.id !in done ==> AckedDocs(log, e)
    {
      ServesDistinct(standing);
      hide Sound, Adds, Serves, AckedDocs, IssuedDocs, MayFail, HasWrite, Flags, Books;
      ghost var all := EntryIds(standing);
      var written := IssueDocs(standing);
      ghost var was := log;
      if written == [] {
        forall e | e in standing ensures AckedDocs(log, e) { NoDocs(log, e); }
        return;
      }
      var ok, rejected := BulkUpsert(standing, written);
      AddsOn(old(log), was, log, all, all);
      was := log;
      if !ok {
        FailMany(written);
        AddsOn(old(log), was, log, all, IdSet(written));
        forall e | e in standing && e.id !in done ensures AckedDocs(log, e) { NoDocs(log, e); }
        return;
      }
      FailSome(standing, rejected);
      AddsOn(old(log), was, log, all, all);
      forall e | e in standing && e.id !in done ensures AckedDocs(log, e) { AckedLater(was, log, all, e); }
    }

    lemma ServesDistinct(entries: seq<Entry>)
      requires Serves(entries)
      ensures DistinctEntries(entries)
    {
    }

    /** Every standing entry's documents in one request; the ids that had one. */
    method IssueDocs(standing: seq<Entry>) returns (written: seq<Id>)
      requires Valid() && Serves(standing) && forall e :: e in standing ==> e.id !in done
      modifies this`log
      ensures Valid() && Adds(old(log), log, EntryIds(standing))
      ensures forall e :: e in standing ==> IssuedDocs(log, e) && (e.outcome.docs == [] || e.id in written)
      ensures forall id :: id in written ==> id in EntryIds(standing) && id !in done && HasWrite(log, id)
      ensures forall a, b :: 0 <= a < b < |written| ==> written[a] != written[b]
    {
      hide Sound, Adds, Answered, Grounded, Stands, IssuedDocs, HasWrite, Flags, Books;
      ghost var all := EntryIds(standing);
      AddsNone(log, all);
      written := [];
      for i := 0 to |standing|
        invariant Valid() && Adds(old(log), log, all)
        invariant forall id :: id in written ==> id in EntryIds(standing[..i]) && HasWrite(log, id)
        invariant forall e :: e in standing[..i] ==> IssuedDocs(log, e) && (e.outcome.docs == [] || e.id in written)
        invariant forall a, b :: 0 <= a < b < |written| ==> written[a] != written[b]
      {
        var e := standing[i];
        assert standing[..i + 1] == standing[..i] + [e] && e in standing;
        ghost var was := log;
        IssueDocsOf(e);
        AddsOn(old(log), was, log, all, {e.id});
        forall o | o in standing[..i] ensures IssuedDocs(log, o) { IssuedLater(was, log, {e.id}, o); }
        NewEntry(standing, i);
        assert e.id !in written;
        forall id | id in written ensures HasWrite(log, id) { WriteLater(was, log, {e.id}, id); }
        WriteIssued(log, e);
        if e.outcome.docs != [] {
          written := written + [e.id];
        }
      }
      assert standing[..|standing|] == standing;
    }

    method IssueDocsOf(e: Entry)
      requires Valid() && e.id !in done && Answered(plans, evidence, e) && !e.outcome.err
      requires Stands(plans, evidence, e.id)
      modifies this`log
      ensures Valid() && Adds(old(log), log, {e.id}) && IssuedDocs(log, e)
    {
      hide Sound, Adds, PlanSaid, Complete, Stands, EveryPlanAnswered, EveryPlanSaidNil, Flags, Books;
      AddsNone(log, {e.id});
      for i := 0 to |e.outcome.docs|
        invariant Valid() && Adds(old(log), log, {e.id})
        invariant forall k :: 0 <= k < i ==> Issued(e.id, Write(e.outcome.docs[k])) in log
      {
        ghost var was := log;
        assert e.outcome.docs[i] in e.outcome.docs;
        Emit(Issued(e.id, Write(e.outcome.docs[i])));
        AddsOn(old(log), was, log, {e.id}, {e.id});
      }
    }

    /** The bulk request: it fails as a whole, or every document of an id no
        failure names has been written. */
    method BulkUpsert(standing: seq<Entry>, written: seq<Id>) returns (ok: bool, rejected: set<Id>)
      requires Valid() && DistinctEntries(standing) && forall e :: e in standing ==> e.id !in done && IssuedDocs(log, e)
      requires forall id :: id in written ==> id in EntryIds(standing) && id !in done && HasWrite(log, id)
      modifies this`log, this`over
      ensures Valid() && Adds(old(log), log, EntryIds(standing))
      ensures ok ==> forall e :: e in standing && e.id !in rejected ==> AckedDocs(log, e)
      ensures rejected <= IdSet(written) && (!ok ==> rejected == IdSet(written))
      ensures forall id :: id in rejected ==> MayFail(plans, evidence, log, id)
    {
      hide Sound, Adds, AckedDocs, IssuedDocs, HasWrite, MayFail, Flags, Books;
      ghost var all := EntryIds(standing);
      ok := Call();
      rejected := *;
      rejected := set id | id in written && (!ok || id in rejected);
      RejectWrites(written, rejected, all);
      if !ok {
        return;
      }
      ghost var mid := log;
      AddsNone(log, all);
      forall e | e in standing ensures IssuedDocs(log, e) { IssuedLater(old(log), log, all, e); }
      for i := 0 to |standing|
        invariant Valid() && Adds(old(log), log, all) && Adds(mid, log, all)
        invariant forall e :: e in standing ==> IssuedDocs(log, e)
        invariant forall e :: e in standing[..i] && e.id !in rejected ==> AckedDocs(log, e)
      {
        var e := standing[i];
        assert standing[..i + 1] == standing[..i] + [e] && e in standing;
        if e.id !in rejected {
          ghost var was := log;
          AckDocs(e);
          AddsOn(old(log), was, log, all, {e.id});
          AddsOn(mid, was, log, all, {e.id});
          forall o | o in standing ensures IssuedDocs(log, o) { IssuedLater(was, log, {e.id}, o); }
          forall o | o in standing[..i] && o.id !in rejected
            ensures AckedDocs(log, o)
          {
            AckedLater(was, log, {e.id}, o);
          }
        }
      }
      assert standing[..|standing|] == standing;
      MayLater(plans, evidence, mid, log, rejected, all);
    }

    /** The rejected documents' ids. */
    ghost method RejectWrites(written: seq<Id>, rejected: set<Id>, all: set<Id>)
      requires Valid() && rejected <= IdSet(written)
      requires forall id :: id in written ==> id in all && id !in done && HasWrite(log, id)
      modifies this`log
      ensures Valid() && Adds(old(log), log, all)
      ensures forall id :: id in rejected ==> MayFail(plans, evidence, log, id)
    {
      hide Sound, Adds, Flags, Books;
      AddsNone(log, all);
      for i := 0 to |written|
        invariant Valid() && Adds(old(log), log, all)
        invariant forall k :: 0 <= k < i && written[k] in rejected ==> exists c :: Failed(written[k], c) in log
        invariant forall id :: id in written ==> HasWrite(log, id)
      {
        if written[i] in rejected {
          ghost var was := log;
          var v :| Issued(written[i], Write(v)) in log;
          Emit(Failed(written[i], At(Write(v))));
          AddsOn(old(log), was, log, all, {written[i]});
          assert log[|log| - 1] == Failed(written[i], At(Write(v)));
          forall id | id in written ensures HasWrite(log, id) { WriteLater(was, log, {written[i]}, id); }
          forall k | 0 <= k < i && written[k] in rejected ensures exists c :: Failed(written[k], c) in log {
            var c :| Failed(written[k], c) in was;
            assert Failed(written[k], c) in log;
          }
        }
      }
    }

    ghost method AckDocs(e: Entry)
      requires Valid() && e.id !in done && IssuedDocs(log, e)
      modifies this`log
      ensures Valid() && Adds(old(log), log, {e.id}) && AckedDocs(log, e)
    {
      hide Sound, Adds, Flags, Books;
      AddsNone(log, {e.id});
      for i := 0 to |e.outcome.docs|
        invariant Valid() && Adds(old(log), log, {e.id}) && IssuedDocs(log, e)
        invariant forall k :: 0 <= k < i ==> Acked(e.id, Write(e.outcome.docs[k])) in log
      {
        ghost var was := log;
        assert e.outcome.docs[i] in e.outcome.docs;
        Emit(Acked(e.id, Write(e.outcome.docs[i])));
        AddsOn(old(log), was, log, {e.id}, {e.id});
      }
    }

    /** Fails the standing entries among `ids`. */
    method FailSome(standing: seq<Entry>, ids: set<Id>)
      requires Valid() && DistinctEntries(standing)
      requires forall id :: id in ids ==> MayFail(plans, evidence, log, id)
      modifies this`log, this`done, this`cancelled
      ensures Valid() && Adds(old(log), log, EntryIds(standing))
      ensures old(done) <= done <= old(done) + EntryIds(standing)
      ensures forall e :: e in standing && e.id in ids ==> e.id in done
      ensures forall e :: e in standing && e.id !in old(done) && e.id !in ids ==> e.id !in done
    {
      hide Sound, Adds, Grounded, MayFail, Flags, Books;
      ghost var all := EntryIds(standing);
      AddsNone(log, all);
      for i := 0 to |standing|
        invariant Valid() && Adds(old(log), log, all)
        invariant old(done) <= done <= old(done) + (all * ids)
        invariant forall k :: 0 <= k < i && standing[k].id in ids ==> standing[k].id in done
        invariant forall id :: id in ids ==> MayFail(plans, evidence, log, id)
      {
        var e := standing[i];
        assert e in standing;
        ghost var was := log;
        if e.id in ids && e.id !in done {
          Fail(e.id);
          AddsOn(old(log), was, log, all, {e.id});
          MayLater(plans, evidence, was, log, ids, {e.id});
        }
      }
    }

    /** 3. Deletes the documents of the versions whose plans returned nil; the
        first failed delete fails the id. */
    method DeleteNils(standing: seq<Entry>)
      requires Valid() && Serves(standing) && forall e :: e in standing && e.id !in done ==> AckedDocs(log, e)
      modifies this`log, this`done, this`cancelled, this`over
      ensures Valid() && Adds(old(log), log, EntryIds(standing))
      ensures old(done) <= done <= old(done) + EntryIds(standing)
      ensures forall e :: e in standing && e.id !in done ==> AckedDocs(log, e) && AckedNils(log, e)
    {
      hide Sound, Adds, Grounded, Answered, Stands, AckedDocs, AckedNils, Flags, Books;
      ghost var all := EntryIds(standing);
      AddsNone(log, all);
      for i := 0 to |standing|
        invariant Valid() && Adds(old(log), log, all)
        invariant old(done) <= done <= old(done) + all
        invariant forall e :: e in standing && e.id !in done ==> AckedDocs(log, e)
        invariant forall e :: e in standing[..i] && e.id !in done ==> AckedNils(log, e)
      {
        var e := standing[i];
        assert standing[..i + 1] == standing[..i] + [e] && e in standing;
        ghost var was := log;
        if e.id !in done {
          DeleteNilsOf(e);
          AddsOn(old(log), was, log, all, {e.id});
          forall o | o in standing && o.id !in done
            ensures AckedDocs(log, o) && (AckedNils(was, o) ==> AckedNils(log, o))
          {
            AckedLater(was, log, {e.id}, o);
          }
        }
      }
      assert standing[..|standing|] == standing;
    }

    method DeleteNilsOf(e: Entry)
      requires Valid() && e.id !in done && Answered(plans, evidence, e) && !e.outcome.err && AckedDocs(log, e)
      requires Stands(plans, evidence, e.id)
      modifies this`log, this`done, this`cancelled, this`over
      ensures Valid() && Adds(old(log), log, {e.id})
      ensures done == old(done) + {e.id} || (done == old(done) && AckedNils(log, e))
    {
      hide Sound, Adds, PlanSaid, AckedDocs, Complete, DocsWritten, EveryPlanSaidNil, EveryPlanAnswered, Stands, Flags,
        Books;
      AddsNone(log, {e.id});
      for i := 0 to |e.outcome.missing|
        invariant Valid() && Adds(old(log), log, {e.id}) && done == old(done) && AckedDocs(log, e)
        invariant forall k :: 0 <= k < i ==> Acked(e.id, Delete(e.outcome.missing[k])) in log
      {
        ghost var was := log;
        assert e.outcome.missing[i] in e.outcome.missing;
        DocsMean(plans, evidence, log, e);
        var ok := Do(e.id, Delete(e.outcome.missing[i]));
        AddsOn(old(log), was, log, {e.id}, {e.id});
        AckedLater(was, log, {e.id}, e);
        StillIn(was, log, {e.id});
        was := log;
        if !ok {
          Fail(e.id);
          AddsOn(old(log), was, log, {e.id}, {e.id});
          return;
        }
      }
    }

    /** 4. Stores every standing entry's edge sets. */
    method StoreEdges(standing: seq<Entry>)
      requires
        && Valid()
        && Serves(standing)
        && forall e :: e in standing && e.id !in done ==> AckedDocs(log, e) && AckedNils(log, e)
      modifies this`log, this`done, this`cancelled, this`over
      ensures Valid() && Adds(old(log), log, EntryIds(standing))
      ensures old(done) <= done <= old(done) + EntryIds(standing)
      ensures forall e :: e in standing && e.id !in done ==> Acked(e.id, Edges) in log
    {
      hide Sound, Adds, Answered, Stands, AckedDocs, AckedNils, DocsWritten, NilsDeleted, Flags, Books;
      ghost var all := EntryIds(standing);
      AddsNone(log, all);
      for i := 0 to |standing|
        invariant Valid() && Adds(old(log), log, all)
        invariant old(done) <= done <= old(done) + all
        invariant forall e :: e in standing && e.id !in done ==> AckedDocs(log, e) && AckedNils(log, e)
        invariant forall e :: e in standing[..i] && e.id !in done ==> Acked(e.id, Edges) in log
      {
        var e := standing[i];
        assert standing[..i + 1] == standing[..i] + [e] && e in standing;
        ghost var was := log;
        if e.id !in done {
          DocsMean(plans, evidence, log, e);
          var ok := Do(e.id, Edges);
          AddsOn(old(log), was, log, all, {e.id});
          ghost var mid := log;
          StillIn(was, mid, {e.id});
          forall o | o in standing && o.id !in done
            ensures AckedDocs(mid, o) && AckedNils(mid, o)
          {
            AckedLater(was, mid, {e.id}, o);
          }
          if !ok {
            Fail(e.id);
            AddsOn(old(log), mid, log, all, {e.id});
            StillIn(mid, log, {e.id});
            forall o | o in standing && o.id !in done
              ensures AckedDocs(log, o) && AckedNils(log, o)
            {
              AckedLater(mid, log, {e.id}, o);
            }
          }
        }
      }
      assert standing[..|standing|] == standing;
    }

    /** The entries still standing. */
    method StillStanding(standing: seq<Entry>) returns (kept: seq<Entry>)
      requires Serves(standing)
      ensures Serves(kept) && forall e :: e in kept <==> e in standing && e.id !in done
    {
      hide Answered;
      kept := [];
      for i := 0 to |standing|
        invariant Serves(kept) && forall e :: e in kept <==> e in standing[..i] && e.id !in done
      {
        assert standing[..i + 1] == standing[..i] + [standing[i]];
        NewEntry(standing, i);
        if standing[i].id !in done {
          kept := kept + [standing[i]];
        }
      }
      assert standing[..|standing|] == standing;
    }

    /** 5. Marks the Parents and checks for drift, one call for all; a failure
        fails every entry. 6. Each finishes. */
    method CheckAndFinish(standing: seq<Entry>)
      requires Valid() && Serves(standing) && forall e :: e in standing ==> e.id !in done && Acked(e.id, Edges) in log
      modifies this`log, this`done, this`cancelled, this`followUps, this`deletes, this`submitted, this`over
      ensures Valid() && Adds(old(log), log, EntryIds(standing))
      ensures done == old(done) + EntryIds(standing)
    {
      ServesDistinct(standing);
      hide Sound, Adds, Serves, MayFail, Flags, Books, DistinctEntries, EntryIds;
      ghost var all := EntryIds(standing);
      var ok := DoAll(standing, Parents);
      ghost var was := log;
      if !ok {
        FailAll(standing, Parents);
        AddsOn(old(log), was, log, all, all);
        return;
      }
      ok := DoAll(standing, Check);
      AddsOn(old(log), was, log, all, all);
      was := log;
      if !ok {
        FailAll(standing, Check);
        AddsOn(old(log), was, log, all, all);
        return;
      }
      FinishAll(standing);
      AddsOn(old(log), was, log, all, all);
    }

    /** Fails every entry after a step of all of them failed. */
    method FailAll(standing: seq<Entry>, ghost step: Step)
      requires Valid() && DistinctEntries(standing)
      requires forall e :: e in standing ==> e.id !in done && Failed(e.id, At(step)) in log
      modifies this`log, this`done, this`cancelled
      ensures Valid() && Adds(old(log), log, EntryIds(standing)) && done == old(done) + EntryIds(standing)
    {
      hide Sound, Adds, Flags, Books;
      var ids := IdsOf(standing);
      forall id | id in ids
        ensures MayFail(plans, evidence, log, id) && id !in done
      {
        assert id in EntryIds(standing);
      }
      FailMany(ids);
    }

    /** One call for all the entries: the mark of their Parents, or the drift
        check. */
    method DoAll(standing: seq<Entry>, step: Step) returns (ok: bool)
      requires Valid() && Serves(standing) && (step.Parents? || step.Check?)
      requires forall e :: e in standing ==> e.id !in done && Acked(e.id, if step.Check? then Parents else Edges) in log
      modifies this`log, this`over
      ensures Valid() && Adds(old(log), log, EntryIds(standing))
      ensures forall e :: e in standing ==> Outcome(e.id, step, ok) in log
    {
      hide Sound, Adds, Stands, Answered, Flags, Books;
      ghost var all := EntryIds(standing);
      IssueAll(standing, step);
      ghost var was := log;
      ok := Call();
      EndAll(standing, step, ok);
      AddsOn(old(log), was, log, all, all);
    }

    ghost method IssueAll(standing: seq<Entry>, step: Step)
      requires Valid() && Serves(standing) && (step.Parents? || step.Check?)
      requires forall e :: e in standing ==> e.id !in done && Acked(e.id, if step.Check? then Parents else Edges) in log
      modifies this`log
      ensures Valid() && Adds(old(log), log, EntryIds(standing))
      ensures forall e :: e in standing ==> Issued(e.id, step) in log
    {
      hide Sound, Adds, Stands, Answered, Flags, Books;
      ghost var all, before := EntryIds(standing), if step.Check? then Parents else Edges;
      AddsNone(log, all);
      for i := 0 to |standing|
        invariant Valid() && Adds(old(log), log, all)
        invariant forall e :: e in standing ==> Acked(e.id, before) in log
        invariant forall k :: 0 <= k < i ==> Issued(standing[k].id, step) in log
      {
        assert standing[i] in standing;
        ghost var was := log;
        Emit(Issued(standing[i].id, step));
        AddsOn(old(log), was, log, all, {standing[i].id});
      }
    }

    ghost method EndAll(standing: seq<Entry>, step: Step, ok: bool)
      requires Valid() && forall e :: e in standing ==> e.id !in done && Issued(e.id, step) in log
      modifies this`log
      ensures Valid() && Adds(old(log), log, EntryIds(standing))
      ensures forall e :: e in standing ==> Outcome(e.id, step, ok) in log
    {
      hide Sound, Adds, Flags, Books;
      ghost var all := EntryIds(standing);
      AddsNone(log, all);
      for i := 0 to |standing|
        invariant Valid() && Adds(old(log), log, all)
        invariant forall e :: e in standing ==> Issued(e.id, step) in log
        invariant forall k :: 0 <= k < i ==> Outcome(standing[k].id, step, ok) in log
      {
        assert standing[i] in standing;
        ghost var was := log;
        Emit(Outcome(standing[i].id, step, ok));
        AddsOn(old(log), was, log, all, {standing[i].id});
      }
    }

    static ghost function Outcome(id: Id, step: Step, ok: bool): Event {
      if ok then Acked(id, step) else Failed(id, At(step))
    }

    method FinishAll(standing: seq<Entry>)
      requires Valid() && Serves(standing) && forall e :: e in standing ==> e.id !in done && Acked(e.id, Check) in log
      modifies this`log, this`done, this`cancelled, this`followUps, this`deletes, this`submitted, this`over
      ensures Valid() && Adds(old(log), log, EntryIds(standing))
      ensures done == old(done) + EntryIds(standing)
    {
      hide Sound, Adds, Answered, Stands, Flags, Books;
      ghost var all := EntryIds(standing);
      AddsNone(log, all);
      for i := 0 to |standing|
        invariant Valid() && Adds(old(log), log, all)
        invariant done == old(done) + EntryIds(standing[..i])
        invariant forall e :: e in standing ==> Acked(e.id, Check) in log
      {
        var e := standing[i];
        assert standing[..i + 1] == standing[..i] + [e] && e in standing;
        NewEntry(standing, i);
        ghost var was := log;
        Finish(e);
        AddsOn(old(log), was, log, all, {e.id});
        StillIn(was, log, {e.id});
      }
      assert standing[..|standing|] == standing;
    }

    /** buildOn: every answered entry ends, and none takes a step after. */
    method BuildOn(entries: seq<Entry>)
      requires Valid() && DistinctEntries(entries)
      requires
        forall e :: e in entries ==> e.token == TokenOf(tokens, e.id) && Answered(plans, evidence, e) && e.id !in done
      modifies this`log, this`done, this`cancelled, this`followUps, this`deletes, this`submitted, this`over
      ensures Valid() && Adds(old(log), log, EntryIds(entries))
      ensures done == old(done) + EntryIds(entries)
    {
      hide Sound, Adds, Answered, Stands, Flags, Books;
      ghost var all := EntryIds(entries);
      var standing := SortOut(entries);
      ghost var s1 := log;
      BulkWrite(standing);
      AddsOn(old(log), s1, log, all, EntryIds(standing));
      ghost var s2 := log;
      DeleteNils(standing);
      AddsOn(old(log), s2, log, all, EntryIds(standing));
      ghost var s3 := log;
      StoreEdges(standing);
      AddsOn(old(log), s3, log, all, EntryIds(standing));
      ghost var s4 := log;
      var kept := StillStanding(standing);
      assert forall e :: e in kept ==> Acked(e.id, Edges) in log;
      if kept == [] {
        NoneKept(standing, kept, done);
        return;
      }
      CheckAndFinish(kept);
      AddsOn(old(log), s4, log, all, EntryIds(kept));
    }

    /** Records what a group's outcomes were read from. */
    ghost method Witness(ids: seq<Id>, streams: seq<seq<P.Page>>)
      requires Valid() && forall id :: id in ids ==> Unseen(log, id)
      modifies this`evidence
      ensures
        Valid() && forall id :: id in ids ==> id in evidence && evidence[id] == Evidence(ids, streams, id in drawn)
      ensures forall id ::
        id !in ids ==>
          (id in evidence <==> id in old(evidence)) && (id in evidence ==> evidence[id] == old(evidence)[id])
    {
      hide Sound, Flags, Books;
      ghost var now :=
        map id | id in evidence.Keys + IdSet(ids) ::
          if id in ids then Evidence(ids, streams, id in drawn) else evidence[id];
      EvidenceSound(plans, tokens, evidence, log, done, now);
      evidence := now;
    }

    /** Asks every plan about a group of ids. */
    method AskGroup(ids: seq<Id>, valid: set<Id>) returns (ok: bool, entries: seq<Entry>)
      requires Valid() && valid == drawn && forall id :: id in ids ==> id !in done && Unseen(log, id)
      requires forall i, j :: 0 <= i < j < |ids| ==> ids[i] != ids[j]
      modifies this`evidence
      ensures
        && Valid()
        && forall id ::
             id !in ids ==>
               (id in evidence <==> id in old(evidence)) && (id in evidence ==> evidence[id] == old(evidence)[id])
      ensures !ok ==> forall id :: id in ids ==> MayFail(plans, evidence, log, id)
      ensures ok ==> EntryIds(entries) == IdSet(ids) && DistinctEntries(entries)
      ensures ok ==> forall e :: e in entries ==> e.token == TokenOf(tokens, e.id) && Answered(plans, evidence, e)
    {
      hide Sound, Answered, P.OutcomesSo, P.AnswersOf, P.AllClean, Unseen, Flags, Books, SomePlanFailed;
      entries := [];
      var streams := Run(ids);
      var outcomes;
      ghost var answers;
      outcomes, answers := P.ExecuteAllPlans(plans, streams, ids);
      if outcomes.Err? {
        return false, [];
      }
      ok := true;
      entries := EntriesOf(ids, outcomes.value, valid, streams, answers);
    }

    /** Every plan's run about a group of ids; a run that fails has a failed page. */
    method Run(ids: seq<Id>) returns (streams: seq<seq<P.Page>>)
      requires Valid() && forall id :: id in ids ==> Unseen(log, id)
      modifies this`evidence
      ensures Valid() && |streams| == |plans|
      ensures forall id :: id in ids ==> id in evidence && evidence[id] == Evidence(ids, streams, id in drawn)
      ensures forall id ::
        id !in ids ==>
          (id in evidence <==> id in old(evidence)) && (id in evidence ==> evidence[id] == old(evidence)[id])
    {
      streams := [];
      while |streams| < |plans|
        invariant |streams| <= |plans|
      {
        var stream: seq<P.Page> := *;
        streams := streams + [stream];
      }
      Witness(ids, streams);
    }

    /** An entry for each id of a group, with its outcome. */
    method EntriesOf(
        ids: seq<Id>, outcomes: map<Id, P.Outcome>, valid: set<Id>, ghost streams: seq<seq<P.Page>>,
        ghost answers: seq<map<Id, P.Said>>)
      returns (entries: seq<Entry>)
      requires forall i, j :: 0 <= i < j < |ids| ==> ids[i] != ids[j]
      requires
        && |streams| == |plans|
        && P.OutcomesSo(plans, answers, ids, outcomes)
        && P.AnswersOf(plans, streams, ids, answers, |plans|)
      requires forall id :: id in ids ==> id in evidence && evidence[id] == Evidence(ids, streams, id in valid)
      requires P.AllClean(plans, streams, ids)
      ensures EntryIds(entries) == IdSet(ids) && DistinctEntries(entries)
      ensures forall e :: e in entries ==> e.token == TokenOf(tokens, e.id) && Answered(plans, evidence, e)
    {
      assert outcomes.Keys == IdSet(ids);
      hide Answered, P.OutcomesSo, P.AnswersOf, P.AllClean;
      entries := [];
      for i := 0 to |ids|
        invariant |entries| == i && forall k :: 0 <= k < i ==> entries[k].id == ids[k]
        invariant forall e :: e in entries ==> e.token == TokenOf(tokens, e.id) && Answered(plans, evidence, e)
      {
        var e := Entry(ids[i], TokenOf(tokens, ids[i]), ids[i] in valid, outcomes[ids[i]]);
        AnsweredNow(plans, streams, ids, answers, outcomes, evidence, e);
        entries := entries + [e];
      }
      SameIds(entries, ids);
    }

    /** Groups a batch's ids by the metadata they fetch with. */
    method GroupByMetadata(ids: seq<Id>, metadata: map<Id, string>) returns (groups: seq<Group>)
      requires forall i, j :: 0 <= i < j < |ids| ==> ids[i] != ids[j]
      ensures Grouped(groups, ids) && Keyed(groups, metadata)
    {
      groups := [];
      for i := 0 to |ids|
        invariant Grouped(groups, ids[..i]) && Keyed(groups, metadata)
      {
        hide Grouped;
        var key := if ids[i] in metadata then metadata[ids[i]] else "";
        var at := 0;
        while at < |groups| && groups[at].key != key
          invariant 0 <= at <= |groups| && forall k :: 0 <= k < at ==> groups[k].key != key
        {
          at := at + 1;
        }
        assert ids[..i + 1] == ids[..i] + [ids[i]];
        GroupedAppend(groups, ids[..i], ids[i], at, key);
        if at < |groups| {
          groups := groups[at := Group(key, groups[at].ids + [ids[i]])];
        } else {
          groups := groups + [Group(key, [ids[i]])];
        }
      }
      assert ids[..|ids|] == ids;
    }

    /** buildBatch: every id of the batch ends. */
    method BuildBatch(ids: seq<Id>)
      requires Valid() && !over && forall id :: id in ids ==> id !in done && Unseen(log, id)
      requires forall i, j :: 0 <= i < j < |ids| ==> ids[i] != ids[j]
      modifies this`log, this`done, this`cancelled, this`followUps, this`deletes, this`submitted, this`over,
        this`evidence, this`drawn
      ensures Valid() && Adds(old(log), log, IdSet(ids))
      ensures done == old(done) + IdSet(ids)
    {
      hide Sound, Adds, Answered, Unseen, Flags, Books;
      ghost var all := IdSet(ids);
      var begun, valid := BeginAll(ids);
      if !begun {
        ghost var was := log;
        FailBatch(ids);
        AddsOn(old(log), was, log, all, all);
        return;
      }
      var metadata: map<Id, string> := *;
      var groups := GroupByMetadata(ids, metadata);
      AddsNone(log, all);
      var answered := AskGroups(groups, valid, ids);
      ghost var was := log;
      BuildOn(answered);
      AddsOn(old(log), was, log, all, EntryIds(answered));
    }

    /** Asks the plans about one group, which fails if the call does. */
    method AnswerGroup(ids: seq<Id>, valid: set<Id>) returns (entries: seq<Entry>)
      requires Valid() && valid == drawn && forall id :: id in ids ==> id !in done && Unseen(log, id)
      requires forall i, j :: 0 <= i < j < |ids| ==> ids[i] != ids[j]
      modifies this`log, this`done, this`cancelled, this`over, this`evidence
      ensures Valid() && Adds(old(log), log, IdSet(ids))
      ensures forall id ::
        id !in ids ==>
          (id in evidence <==> id in old(evidence)) && (id in evidence ==> evidence[id] == old(evidence)[id])
      ensures
        DistinctEntries(entries) && done + EntryIds(entries) == old(done) + IdSet(ids) && done !! EntryIds(entries)
      ensures forall e :: e in entries ==>
        e.token == TokenOf(tokens, e.id) && Answered(plans, evidence, e) && e.id in ids && e.id !in done
    {
      hide Sound, Adds, Answered, Unseen, MayFail, Flags, Books;
      var _ := Call();
      var ok;
      ok, entries := AskGroup(ids, valid);
      if !ok {
        FailBatch(ids);
        entries := [];
        return;
      }
      AddsNone(log, IdSet(ids));
      forall e | e in entries ensures e.id in ids && e.id !in done { assert e.id in EntryIds(entries); }
    }

    /** Asks the plans about each group; a group whose call fails, fails. */
    method AskGroups(groups: seq<Group>, valid: set<Id>, ghost ids: seq<Id>) returns (answered: seq<Entry>)
      requires Valid() && valid == drawn && forall id :: id in ids ==> id !in done && Unseen(log, id)
      requires Grouped(groups, ids)
      modifies this`log, this`done, this`cancelled, this`over, this`evidence
      ensures Valid() && Adds(old(log), log, IdSet(ids))
      ensures
        && DistinctEntries(answered)
        && (forall e ::
              e in answered ==> e.token == TokenOf(tokens, e.id) && Answered(plans, evidence, e) && e.id !in done)
      ensures done + EntryIds(answered) == old(done) + IdSet(ids)
      ensures EntryIds(answered) <= IdSet(ids)
    {
      hide Sound, Adds, Answered, Grouped, GroupIds, Flags, Books, Unseen, MayFail;
      answered := [];
      AddsNone(log, GroupIds(groups[..0]));
      GroupsNone(groups, ids);
      for g := 0 to |groups|
        invariant Valid() && Adds(old(log), log, GroupIds(groups[..g]))
        invariant AnsweredOf(answered, GroupIds(groups[..g]))
        invariant done + EntryIds(answered) == old(done) + GroupIds(groups[..g])
      {
        var own := groups[g].ids;
        NextGroup(groups, ids, g);
        Untouched(old(log), log, GroupIds(groups[..g]), own);
        ghost var was, wasEvidence, wasDone := log, evidence, done;
        var entries := AnswerGroup(own, valid);
        StillAnswered(answered, wasEvidence, evidence, own, GroupIds(groups[..g]));
        AddsWider(old(log), was, GroupIds(groups[..g]), GroupIds(groups[..g + 1]));
        AddsOn(old(log), was, log, GroupIds(groups[..g + 1]), IdSet(own));
        JoinEntries(answered, entries, own, GroupIds(groups[..g]));
        answered := answered + entries;
        assert AnsweredOf(answered, GroupIds(groups[..g + 1]));
      }
      assert groups[..|groups|] == groups;
      AllGrouped(groups, ids);
    }

    /** The entries asked so far, of the groups' ids, each with its outcome. */
    ghost predicate AnsweredOf(entries: seq<Entry>, ids: set<Id>)
      reads this
    {
      && DistinctEntries(entries)
      && forall e ::
           e in entries ==>
             e.token == TokenOf(tokens, e.id) && Answered(plans, evidence, e) && e.id !in done && e.id in ids
    }

    lemma StillAnswered(entries: seq<Entry>, was: map<Id, Evidence>, now: map<Id, Evidence>, own: seq<Id>, ids: set<Id>)
      requires forall e :: e in entries ==> Answered(plans, was, e) && e.id in ids
      requires forall id :: id in own ==> id !in ids
      requires forall id :: id !in own ==> (id in now <==> id in was) && (id in now ==> now[id] == was[id])
      ensures forall e :: e in entries ==> Answered(plans, now, e)
    {
    }

    /** Releases the owned ids of `ids`, which nothing was done for. */
    method ReleaseOwned(ids: seq<Id>)
      requires Valid() && forall id :: id in ids ==> id !in done && Unseen(log, id)
      requires forall i, j :: 0 <= i < j < |ids| ==> ids[i] != ids[j]
      modifies this`log, this`done, this`cancelled, this`left
      ensures Valid() && Adds(old(log), log, IdSet(ids)) && cancelled == old(cancelled)
      ensures forall id :: id in done <==> id in old(done) || (id in ids && TokenOf(tokens, id) != 0)
    {
      hide Sound, Adds, Books;
      left := true;
      ghost var all := IdSet(ids);
      AddsNone(log, all);
      for i := 0 to |ids|
        invariant Valid() && Adds(old(log), log, all) && left
        invariant forall id :: id in done <==> id in old(done) || (id in ids[..i] && TokenOf(tokens, id) != 0)
        invariant forall k :: i <= k < |ids| ==> Unseen(log, ids[k])
        invariant CutShort(log) <==> CutShort(old(log))
      {
        assert ids[..i + 1] == ids[..i] + [ids[i]];
        ghost var was := log;
        if TokenOf(tokens, ids[i]) != 0 {
          End(ids[i], Unbuilt(!over));
          AddsOn(old(log), was, log, all, {ids[i]});
          NotCutShort(was, log);
        }
      }
      assert ids[..|ids|] == ids;
    }

    /** The call's follow-ups go out together, cut into batches. */
    method SubmitFollowUps(size: nat)
      requires Valid() && size > 0
      modifies this`followUps, this`submitted
      ensures Valid() && followUps == [] && deletes == old(deletes)
    {
      hide Sound, Flags, Books;
      var batches := OwnedBatches(followUps, map[], size);
      var all := Flatten(batches);
      BooksSent(typ, log, deletes, submitted, followUps, all);
      submitted := submitted + all;
      followUps := [];
    }
  }

  lemma BatchFresh(batches: seq<seq<Id>>, i: nat)
    requires
      i < |batches| && forall a, b :: 0 <= a < b < |Flatten(batches)| ==> Flatten(batches)[a] != Flatten(batches)[b]
    ensures Flatten(batches[..i + 1]) == Flatten(batches[..i]) + batches[i]
    ensures Flatten(batches) == Flatten(batches[..i]) + Flatten(batches[i..])
    ensures forall id :: id in batches[i] ==> id !in Flatten(batches[..i])
    ensures forall id :: id in Flatten(batches[i..]) ==> id !in Flatten(batches[..i])
    ensures forall a, b :: 0 <= a < b < |batches[i]| ==> batches[i][a] != batches[i][b]
    ensures forall a, b :: 0 <= a < b < |Flatten(batches[i..])| ==> Flatten(batches[i..])[a] != Flatten(batches[i..])[b]
  {
    assert batches[..i + 1][..i] == batches[..i];
    assert batches == batches[..i] + batches[i..] && batches == batches[..i + 1] + batches[i + 1..];
    FlattenJoin(batches[..i], batches[i..]);
    FlattenJoin(batches[..i + 1], batches[i + 1..]);
    hide Flatten;
    DistinctParts(Flatten(batches[..i]), Flatten(batches[i..]));
    DistinctParts(Flatten(batches[..i]) + batches[i], Flatten(batches[i + 1..]));
    DistinctParts(Flatten(batches[..i]), batches[i]);
  }

  lemma DistinctParts(a: seq<Id>, b: seq<Id>)
    requires forall i, j :: 0 <= i < j < |a + b| ==> (a + b)[i] != (a + b)[j]
    ensures forall i, j :: 0 <= i < j < |a| ==> a[i] != a[j]
    ensures forall i, j :: 0 <= i < j < |b| ==> b[i] != b[j]
    ensures forall id :: id in b ==> id !in a
  {
    forall i, j | 0 <= i < |a| && 0 <= j < |b| ensures a[i] != b[j] {
      assert (a + b)[i] == a[i] && (a + b)[|a| + j] == b[j];
    }
    forall i, j | 0 <= i < j < |a| ensures a[i] != a[j] { assert (a + b)[i] == a[i] && (a + b)[j] == a[j]; }
    forall i, j | 0 <= i < j < |b| ensures b[i] != b[j] { assert (a + b)[|a| + i] == b[i] && (a + b)[|a| + j] == b[j]; }
  }

  /** What a Build call owes: every owned id ends exactly once and nothing is
      done for an id after it ended; every id ends, and none unbuilt, unless the
      call says it did not get to all. */
  ghost predicate Conserves(
      ids: seq<Id>, plans: seq<P.Plan>, tokens: map<Id, nat>, evidence: map<Id, Evidence>, log: seq<Event>,
      complete: bool)
  {
    && Quiet(log) && AllGrounded(plans, tokens, evidence, log) && Timed(log)
    && (forall id {:trigger HasEnded(log, id)} ::
          id in ids && (complete || (id in tokens && tokens[id] != 0)) ==> HasEnded(log, id))
    && (complete ==> NoneUnbuilt(log))
    && (forall i {:trigger log[i]} :: 0 <= i < |log| ==> log[i].id in ids)
  }

  lemma ConservesNow(b: BatchBuild, ids: seq<Id>, complete: bool)
    requires b.Valid() && Adds([], b.log, IdSet(ids)) && (complete ==> !b.left)
    requires forall id :: id in ids && (complete || TokenOf(b.tokens, id) != 0) ==> id in b.done
    ensures Conserves(ids, b.plans, b.tokens, b.evidence, b.log, complete)
    ensures b.cancelled <==> CutShort(b.log)
  {
  }

  /** Build. `configured` is a type with plans. It succeeds exactly when it got
      to every id and no failure met the context ended. */
  method Build(typ: string, plans: seq<P.Plan>, tokens: map<Id, nat>, ids: seq<Id>, size: nat, configured: bool)
    returns (ok: bool, complete: bool, ghost over: bool, ghost log: seq<Event>, ghost evidence: map<Id, Evidence>,
      submitted: seq<Owned>, deletes: seq<Owned>)
    requires size > 0
    ensures Conserves(ids, plans, tokens, evidence, log, complete)
    ensures ok <==> complete && !CutShort(log)
    ensures (!configured ==> !complete) && (configured && !complete ==> over)
    ensures HandedOn(typ, log, true) == multiset(deletes) && HandedOn(typ, log, false) == multiset(submitted)
  {
    hide Conserves, Adds, Sound, FirstSeen, Flatten, Flags, Books, CutShort;
    var b := new BatchBuild(typ, plans, tokens);
    var batches := IdBatches(ids, size);
    FirstSeenIs(ids);
    AddsNone(b.log, {});
    var _ := b.Call();
    complete := configured;
    if !configured {
      ghost var all := IdSet(FirstSeen(ids));
      b.ReleaseOwned(FirstSeen(ids));
      assert all == IdSet(ids);
    } else {
      complete := BuildBatches(b, batches, ids);
    }
    ConservesNow(b, ids, complete);
    ok := complete && !b.cancelled;
    b.SubmitFollowUps(size);
    BooksClosed(typ, b.log, b.deletes, b.submitted);
    over, log, evidence, submitted, deletes := b.over, b.log, b.evidence, b.submitted, b.deletes;
  }

  method BuildBatches(b: BatchBuild, batches: seq<seq<Id>>, ghost ids: seq<Id>) returns (complete: bool)
    requires b.Valid() && b.log == [] && b.done == {} && !b.left
    requires forall i, j :: 0 <= i < j < |Flatten(batches)| ==> Flatten(batches)[i] != Flatten(batches)[j]
    requires forall id :: id in Flatten(batches) <==> id in ids
    modifies b
    ensures b.Valid() && Adds([], b.log, IdSet(ids)) && (complete ==> !b.left) && (!complete ==> b.over)
    ensures forall id :: id in ids && (complete || TokenOf(b.tokens, id) != 0) ==> id in b.done
  {
    FlattenEmpty(batches);
    AddsNone([], IdSet(Flatten(batches[..0])));
    assert IdSet(Flatten(batches)) == IdSet(ids);
    hide Adds, Sound, Flatten, Flags, Books, Unseen;
    for i := 0 to |batches|
      invariant b.Valid() && !b.left && Adds([], b.log, IdSet(Flatten(batches[..i])))
      invariant forall id :: id in b.done <==> id in Flatten(batches[..i])
    {
      complete := NextBatch(b, batches, i);
      if !complete {
        return;
      }
    }
    assert batches[..|batches|] == batches;
    complete := true;
  }

  /** One batch; once the context has ended, the ids of this and the later ones
      are released unbuilt. */
  method NextBatch(b: BatchBuild, batches: seq<seq<Id>>, i: nat) returns (go: bool)
    requires i < |batches| && b.Valid() && !b.left && Adds([], b.log, IdSet(Flatten(batches[..i])))
    requires forall i, j :: 0 <= i < j < |Flatten(batches)| ==> Flatten(batches)[i] != Flatten(batches)[j]
    requires forall id :: id in b.done <==> id in Flatten(batches[..i])
    modifies b
    ensures b.Valid()
    ensures go ==> !b.left && Adds([], b.log, IdSet(Flatten(batches[..i + 1])))
    ensures go ==> forall id :: id in b.done <==> id in Flatten(batches[..i + 1])
    ensures !go ==> b.over && Adds([], b.log, IdSet(Flatten(batches)))
    ensures !go ==> forall id :: id in Flatten(batches) && TokenOf(b.tokens, id) != 0 ==> id in b.done
  {
    BatchFresh(batches, i);
    hide Adds, Sound, Flatten, Flags, Books, Unseen;
    ghost var was, served, all := b.log, IdSet(Flatten(batches[..i])), IdSet(Flatten(batches));
    var _ := b.Call();
    AddsWider([], was, served, all);
    if b.over {
      Untouched([], was, served, Flatten(batches[i..]));
      b.ReleaseOwned(Flatten(batches[i..]));
      AddsOn([], was, b.log, all, IdSet(Flatten(batches[i..])));
      return false;
    }
    Untouched([], was, served, batches[i]);
    b.BuildBatch(batches[i]);
    ghost var wider := IdSet(Flatten(batches[..i + 1]));
    AddsWider([], was, served, wider);
    AddsOn([], was, b.log, wider, IdSet(batches[i]));
    go := true;
  }

  lemma KeptAll(owned: seq<Owned>, all: seq<Owned>)
    requires all == ByTypes(owned, TypesOf(owned)) && forall o :: o in owned ==> o.token != 0
    ensures multiset(all) == multiset(owned)
  {
    forall o ensures multiset(all)[o] == multiset(owned)[o] {
      BatchesKeepEvery(owned, o);
    }
  }

  lemma NotCutShort(was: seq<Event>, now: seq<Event>)
    requires |now| == |was| + 1 && was <= now && now[|was|].Ended? && now[|was|].how.Unbuilt?
    ensures CutShort(now) <==> CutShort(was)
  {
    if CutShort(was) {
      var i :| 0 <= i < |was| && was[i].Ended? && was[i].over && (was[i].how.Released? || was[i].how.Dropped?);
      assert now[i] == was[i];
    }
  }

  lemma FlattenEmpty(batches: seq<seq<Id>>)
    ensures Flatten(batches[..0]) == []
  {
  }

  lemma JoinEntries(a: seq<Entry>, b: seq<Entry>, own: seq<Id>, ids: set<Id>)
    requires
      && DistinctEntries(a)
      && DistinctEntries(b)
      && (forall e :: e in a ==> e.id in ids)
      && forall e :: e in b ==> e.id in own
    requires forall id :: id in own ==> id !in ids
    ensures DistinctEntries(a + b) && EntryIds(a + b) == EntryIds(a) + EntryIds(b)
  {
  }

  lemma GroupsNone(groups: seq<Group>, ids: seq<Id>)
    ensures GroupIds(groups[..0]) == {}
  {
  }

  lemma AddsWider(was: seq<Event>, now: seq<Event>, ids: set<Id>, more: set<Id>)
    requires Adds(was, now, ids) && ids <= more
    ensures Adds(was, now, more)
  {
  }

  lemma Untouched(was: seq<Event>, now: seq<Event>, ids: set<Id>, own: seq<Id>)
    requires Adds(was, now, ids) && forall id :: id in own ==> id !in ids && Unseen(was, id)
    ensures forall id :: id in own ==> Unseen(now, id)
  {
    forall id | id in own ensures Unseen(now, id) {
      forall i | 0 <= i < |now| ensures now[i].id != id {
        if i < |was| { assert now[i] == was[i]; }
      }
    }
  }

  lemma SameIds(entries: seq<Entry>, ids: seq<Id>)
    requires |entries| == |ids| && forall k :: 0 <= k < |ids| ==> entries[k].id == ids[k]
    ensures EntryIds(entries) == IdSet(ids)
  {
    forall id | id in ids ensures id in EntryIds(entries) {
      var k :| 0 <= k < |ids| && ids[k] == id;
      assert entries[k].id == id;
    }
  }

  datatype Group = Group(key: string, ids: seq<Id>)

  ghost function GroupIds(groups: seq<Group>): set<Id> {
    set g, id | g in groups && id in g.ids :: id
  }

  /** Each group is of one metadata, and no two groups of the same. */
  ghost predicate Keyed(groups: seq<Group>, metadata: map<Id, string>) {
    && (forall g :: g in groups ==>
          forall id :: id in g.ids ==> g.key == if id in metadata then metadata[id] else "")
    && forall a, b :: 0 <= a < b < |groups| ==> groups[a].key != groups[b].key
  }

  /** Every id is in one group, once. */
  ghost predicate Grouped(groups: seq<Group>, ids: seq<Id>) {
    && GroupIds(groups) == IdSet(ids)
    && (forall g :: g in groups ==> forall i, j :: 0 <= i < j < |g.ids| ==> g.ids[i] != g.ids[j])
    && (forall a, b :: 0 <= a < b < |groups| ==> forall id :: id in groups[a].ids ==> id !in groups[b].ids)
  }

  lemma GroupedAppend(groups: seq<Group>, ids: seq<Id>, id: Id, at: nat, key: string)
    requires Grouped(groups, ids) && id !in ids && at <= |groups|
    ensures at < |groups| ==> Grouped(groups[at := Group(key, groups[at].ids + [id])], ids + [id])
    ensures at == |groups| ==> Grouped(groups + [Group(key, [id])], ids + [id])
  {
    assert id !in GroupIds(groups);
    forall g | g in groups ensures id !in g.ids {}
    if at < |groups| {
      var more := Group(key, groups[at].ids + [id]);
      var groups' := groups[at := more];
      forall x ensures x in GroupIds(groups') <==> x in GroupIds(groups) || x == id {
        if x in GroupIds(groups) {
          var g :| g in groups && x in g.ids;
          var k :| 0 <= k < |groups| && groups[k] == g;
          assert x in groups'[k].ids;
        }
        if x == id { assert id in groups'[at].ids; }
      }
    } else {
      var last := Group(key, [id]);
      forall x ensures x in GroupIds(groups + [last]) <==> x in GroupIds(groups) || x == id {
        if x == id { assert last in groups + [last]; }
      }
    }
  }

  lemma NextGroup(groups: seq<Group>, ids: seq<Id>, g: nat)
    requires Grouped(groups, ids) && g < |groups|
    ensures GroupIds(groups[..g + 1]) == GroupIds(groups[..g]) + IdSet(groups[g].ids)
    ensures forall id :: id in groups[g].ids ==> id in ids && id !in GroupIds(groups[..g])
    ensures forall i, j :: 0 <= i < j < |groups[g].ids| ==> groups[g].ids[i] != groups[g].ids[j]
  {
    assert groups[..g + 1] == groups[..g] + [groups[g]] && groups[g] in groups;
    forall id | id in groups[g].ids ensures id in ids && id !in GroupIds(groups[..g]) {
      assert id in GroupIds(groups);
    }
  }

  lemma AllGrouped(groups: seq<Group>, ids: seq<Id>)
    requires Grouped(groups, ids)
    ensures GroupIds(groups) == IdSet(ids)
  {
  }

  lemma {:induction false} SayingIs(
      plans: seq<P.Plan>, answers: seq<map<Id, P.Said>>, n: nat, id: Id, said: P.Said, v: Version)
    requires
      n <= |plans| == |answers| && (forall a :: a in answers ==> id in a) && v in P.Saying(plans, answers, n, id, said)
    ensures exists k :: 0 <= k < n && plans[k].active && plans[k].version == v && answers[k][id] == said
  {
    if n > 0 && !(plans[n - 1].active && answers[n - 1][id] == said && plans[n - 1].version == v) {
      SayingIs(plans, answers, n - 1, id, said, v);
    }
  }

  lemma AnsweredNow(
      plans: seq<P.Plan>, streams: seq<seq<P.Page>>, ids: seq<Id>, answers: seq<map<Id, P.Said>>,
      outcomes: map<Id, P.Outcome>, evidence: map<Id, Evidence>, e: Entry)
    requires
      && |streams| == |plans|
      && P.OutcomesSo(plans, answers, ids, outcomes)
      && P.AnswersOf(plans, streams, ids, answers, |plans|)
    requires P.AllClean(plans, streams, ids)
    requires
      && e.id in ids
      && e.outcome == outcomes[e.id]
      && e.id in evidence
      && evidence[e.id] == Evidence(ids, streams, e.valid)
    ensures Answered(plans, evidence, e)
  {
    assert P.OutcomeIs(plans, answers, |plans|, e.id, e.outcome);
    hide P.OutcomesSo;
    var w := evidence[e.id];
    if e.outcome.err {
      var k :| 0 <= k < |plans| && plans[k].active && answers[k][e.id] == P.SaidErr;
      assert P.AnswerIs(P.ItemsOf(streams[k]), e.id, P.SaidErr);
    } else {
      forall k | 0 <= k < |plans| && plans[k].active
        ensures P.Explicit(w.streams[k], e.id, P.SaidDoc) || P.Explicit(w.streams[k], e.id, P.SaidNil)
      {
        assert P.AnswerIs(P.ItemsOf(streams[k]), e.id, answers[k][e.id]) && answers[k][e.id] != P.SaidErr;
      }
      forall v | v in e.outcome.docs ensures PlanSaid(plans, w, e.id, v, P.SaidDoc) {
        SayingIs(plans, answers, |plans|, e.id, P.SaidDoc, v);
      }
      forall v | v in e.outcome.missing ensures PlanSaid(plans, w, e.id, v, P.SaidNil) {
        SayingIs(plans, answers, |plans|, e.id, P.SaidNil, v);
      }
      if e.outcome.docs == [] { P.GoneMeans(plans, answers, |plans|, e.id); }
      CompleteNow(plans, streams, ids, answers, e);
      GoneNow(plans, streams, ids, w, e);
    }
  }

  /** Every plan said nil exactly when there are nils and no document. */
  lemma GoneNow(plans: seq<P.Plan>, streams: seq<seq<P.Page>>, ids: seq<Id>, w: Evidence, e: Entry)
    requires |streams| == |plans| && w.streams == streams && P.AllClean(plans, streams, ids)
    requires EveryPlanAnswered(plans, w, e.id) && Complete(plans, w, e)
    requires forall v :: v in e.outcome.docs ==> PlanSaid(plans, w, e.id, v, P.SaidDoc)
    requires forall v :: v in e.outcome.missing ==> PlanSaid(plans, w, e.id, v, P.SaidNil)
    ensures e.outcome.docs == [] && e.outcome.missing != [] <==> SomeActive(plans) && EveryPlanSaidNil(plans, w, e.id)
  {
    if e.outcome.docs != [] {
      assert PlanSaid(plans, w, e.id, e.outcome.docs[0], P.SaidDoc);
      var k :| 0 <= k < |plans| && plans[k].active && P.Explicit(w.streams[k], e.id, P.SaidDoc);
      if P.Explicit(w.streams[k], e.id, P.SaidNil) {
        OneAnswer(P.ItemsOf(streams[k]), ids, e.id, P.SaidDoc, P.SaidNil);
      }
    } else if e.outcome.missing != [] {
      assert PlanSaid(plans, w, e.id, e.outcome.missing[0], P.SaidNil);
    }
  }

  lemma CompleteNow(
      plans: seq<P.Plan>, streams: seq<seq<P.Page>>, ids: seq<Id>, answers: seq<map<Id, P.Said>>, e: Entry)
    requires
      && |streams| == |plans| == |answers|
      && P.AnswersOf(plans, streams, ids, answers, |plans|)
      && P.AllClean(plans, streams, ids)
    requires
      && e.id in ids
      && !e.outcome.err
      && (forall a :: a in answers ==> e.id in a)
      && P.OutcomeIs(plans, answers, |plans|, e.id, e.outcome)
    ensures forall valid :: Complete(plans, Evidence(ids, streams, valid), e)
  {
    forall k | 0 <= k < |plans| && plans[k].active
      ensures P.Explicit(streams[k], e.id, P.SaidDoc) ==> plans[k].version in e.outcome.docs
      ensures P.Explicit(streams[k], e.id, P.SaidNil) ==> plans[k].version in e.outcome.missing
    {
      if P.Explicit(streams[k], e.id, P.SaidDoc) {
        OneAnswer(P.ItemsOf(streams[k]), ids, e.id, P.SaidDoc, answers[k][e.id]);
      }
      if P.Explicit(streams[k], e.id, P.SaidNil) {
        OneAnswer(P.ItemsOf(streams[k]), ids, e.id, P.SaidNil, answers[k][e.id]);
      }
      SayingHas(plans, answers, |plans|, e.id, answers[k][e.id], k);
    }
  }

  lemma OneAnswer(items: seq<P.Item>, ids: seq<Id>, id: Id, said: P.Said, answer: P.Said)
    requires P.Proper(items, ids) && P.AnswerIs(items, id, answer) && P.Item(id, said) in items
    ensures answer == said
  {
    var i :| 0 <= i < |items| && items[i] == P.Item(id, said);
    var j :| 0 <= j < |items| && items[j] == P.Item(id, answer);
  }

  lemma {:induction false} SayingHas(
      plans: seq<P.Plan>, answers: seq<map<Id, P.Said>>, n: nat, id: Id, said: P.Said, k: nat)
    requires
      && k < n <= |plans| == |answers|
      && (forall a :: a in answers ==> id in a)
      && plans[k].active
      && answers[k][id] == said
    ensures plans[k].version in P.Saying(plans, answers, n, id, said)
  {
    if k < n - 1 { SayingHas(plans, answers, n - 1, id, said, k); }
  }

  ghost predicate IssuedDocs(log: seq<Event>, e: Entry) {
    forall v :: v in e.outcome.docs ==> Issued(e.id, Write(v)) in log
  }

  ghost predicate AckedDocs(log: seq<Event>, e: Entry) {
    forall v :: v in e.outcome.docs ==> Acked(e.id, Write(v)) in log
  }

  ghost predicate AckedNils(log: seq<Event>, e: Entry) {
    forall v :: v in e.outcome.missing ==> Acked(e.id, Delete(v)) in log
  }

  ghost predicate HasWrite(log: seq<Event>, id: Id) {
    exists v :: Issued(id, Write(v)) in log
  }

  lemma WriteLater(was: seq<Event>, now: seq<Event>, ids: set<Id>, id: Id)
    requires Adds(was, now, ids) && HasWrite(was, id)
    ensures HasWrite(now, id)
  {
    StillIn(was, now, ids);
    var v :| Issued(id, Write(v)) in was;
    assert Issued(id, Write(v)) in now;
  }

  lemma WriteIssued(log: seq<Event>, e: Entry)
    requires IssuedDocs(log, e)
    ensures e.outcome.docs == [] || HasWrite(log, e.id)
  {
    if e.outcome.docs != [] { assert e.outcome.docs[0] in e.outcome.docs; }
  }

  lemma MayLater(
      plans: seq<P.Plan>, evidence: map<Id, Evidence>, was: seq<Event>, now: seq<Event>, who: set<Id>, ids: set<Id>)
    requires Adds(was, now, ids) && forall id :: id in who ==> MayFail(plans, evidence, was, id)
    ensures forall id :: id in who ==> MayFail(plans, evidence, now, id)
  {
    StillIn(was, now, ids);
    forall id | id in who ensures MayFail(plans, evidence, now, id) {
      if c :| Failed(id, c) in was { assert Failed(id, c) in now; }
    }
  }

  lemma NoDocs(log: seq<Event>, e: Entry)
    ensures e.outcome.docs == [] ==> AckedDocs(log, e)
  {
  }

  lemma StillIn(was: seq<Event>, now: seq<Event>, ids: set<Id>)
    requires Adds(was, now, ids)
    ensures forall e :: e in was ==> e in now
  {
    assert now[..|was|] == was;
  }

  lemma IssuedLater(was: seq<Event>, now: seq<Event>, ids: set<Id>, e: Entry)
    requires Adds(was, now, ids)
    ensures IssuedDocs(was, e) ==> IssuedDocs(now, e)
  {
    StillIn(was, now, ids);
  }

  lemma AckedLater(was: seq<Event>, now: seq<Event>, ids: set<Id>, e: Entry)
    requires Adds(was, now, ids)
    ensures AckedDocs(was, e) ==> AckedDocs(now, e)
    ensures AckedNils(was, e) ==> AckedNils(now, e)
  {
    StillIn(was, now, ids);
  }

  /** An entry's own documents and nils are all its plans'. */
  lemma DocsMean(plans: seq<P.Plan>, evidence: map<Id, Evidence>, log: seq<Event>, e: Entry)
    requires Answered(plans, evidence, e) && !e.outcome.err
    ensures e.id in evidence
    ensures AckedDocs(log, e) ==> DocsWritten(plans, evidence[e.id], e.id, log)
    ensures AckedNils(log, e) ==> NilsDeleted(plans, evidence[e.id], e.id, log)
  {
  }

  lemma NoneKept(standing: seq<Entry>, kept: seq<Entry>, done: set<Id>)
    requires kept == [] && forall e :: e in kept <==> e in standing && e.id !in done
    ensures EntryIds(standing) <= done
  {
    forall e | e in standing ensures e.id in done {
      assert e !in kept;
    }
  }

  lemma NewEntry(entries: seq<Entry>, i: nat)
    requires DistinctEntries(entries) && i < |entries|
    ensures forall e :: e in entries[..i] ==> e.id != entries[i].id
  {
  }

  /** What an entry's outcome says of its id. */
  lemma SortedBy(plans: seq<P.Plan>, evidence: map<Id, Evidence>, log: seq<Event>, e: Entry)
    requires Answered(plans, evidence, e)
    ensures e.outcome.err || !e.valid ==> MayFail(plans, evidence, log, e.id)
    ensures !e.outcome.err && e.valid ==>
      if e.outcome.docs == [] && e.outcome.missing != [] then Gone(plans, evidence, e.id)
      else Stands(plans, evidence, e.id)
  {
  }

  method IdsOf(entries: seq<Entry>) returns (ids: seq<Id>)
    requires DistinctEntries(entries)
    ensures IdSet(ids) == EntryIds(entries) && |ids| == |entries|
    ensures forall i :: 0 <= i < |ids| ==> ids[i] == entries[i].id
    ensures forall i, j :: 0 <= i < j < |ids| ==> ids[i] != ids[j]
  {
    ids := [];
    for i := 0 to |entries|
      invariant |ids| == i && forall k :: 0 <= k < i ==> ids[k] == entries[k].id
    {
      ids := ids + [entries[i].id];
    }
    forall e | e in entries ensures e.id in ids {
      var k :| 0 <= k < |entries| && entries[k] == e;
      assert ids[k] == e.id;
    }
  }

  lemma AddsNone(log: seq<Event>, ids: set<Id>)
    ensures Adds(log, log, ids)
  {
  }
}
