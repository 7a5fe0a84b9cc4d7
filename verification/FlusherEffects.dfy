// What failing an id, asking for a delete and settling an id do to the entries
// and to the effects, part by part of the invariant.

module FlusherEffects {
  import opened Rows
  import opened FlusherModel

  // -------------------------------------------------------------------- fail

  /** The effects of failing an id whose mark went through, or did not. */
  ghost function FailEffects(fx: Effects, life: Life, ok: bool): Effects {
    fx.(begun := fx.begun + {life}, failedIds := fx.failedIds + {life.id},
        marked := if ok then fx.marked + {life} else fx.marked)
  }

  lemma FailMarksOnly(fx: Effects, life: Life, ok: bool)
    ensures FailEffects(fx, life, ok).landed == fx.landed && FailEffects(fx, life, ok).rooted == fx.rooted
  {
  }

  lemma FailKeepsFailures(state: map<Id, Entry>, id: Id, failed: nat, markFailed: bool, fx: Effects, ok: bool)
    requires Failures(state, failed, markFailed, fx) && (id in state ==> !state[id].failed)
    ensures
      Failures(Failing(state, id), failed + 1, markFailed || !ok,
        FailEffects(fx, Life(id, Failing(state, id)[id].occ), ok))
  {
    var s', fx' := Failing(state, id), FailEffects(fx, Life(id, Failing(state, id)[id].occ), ok);
    forall j ensures j in fx'.failedIds <==> j in s' && s'[j].failed {
      assert j in fx.failedIds <==> j in state && state[j].failed;
    }
  }

  lemma FailKeeps(
      state: map<Id, Entry>, hist: map<Id, Hist>, failed: nat, markFailed: bool, keepSettled: bool, mayDelete: bool,
      fx: Effects, id: Id, ok: bool)
    requires Sound(state, hist, failed, markFailed, keepSettled, mayDelete, fx)
    requires id in state ==> !state[id].failed
    ensures Sound(Failing(state, id), FailingHist(hist, id), failed + 1, markFailed || !ok, keepSettled, mayDelete,
                  FailEffects(fx, Life(id, Failing(state, id)[id].occ), ok))
    ensures Grows(fx, FailEffects(fx, Life(id, Failing(state, id)[id].occ), ok))
  {
    hide Failures, Owed, Bounded, AllClean, Kept, Served;
    var s', h', fx' :=
      Failing(state, id), FailingHist(hist, id), FailEffects(fx, Life(id, Failing(state, id)[id].occ), ok);
    FailKeepsFailures(state, id, failed, markFailed, fx, ok);
    FailKeepsOwed(state, fx, id, ok);
    FailKeepsClean(state, hist, keepSettled, fx, id, ok);
    forall life | life in fx'.settled ensures Served(life, fx'.settled[life], mayDelete, fx') {
      ServedGrows(life, fx.settled[life], mayDelete, fx, fx');
    }
  }

  lemma FailKeepsClean(state: map<Id, Entry>, hist: map<Id, Hist>, keepSettled: bool, fx: Effects, id: Id, ok: bool)
    requires AllClean(state, hist, fx) && Kept(state, hist, keepSettled, fx)
    ensures
      AllClean(Failing(state, id), FailingHist(hist, id), FailEffects(fx, Life(id, Failing(state, id)[id].occ), ok))
    ensures
      Kept(Failing(state, id), FailingHist(hist, id), keepSettled,
        FailEffects(fx, Life(id, Failing(state, id)[id].occ), ok))
  {
    var s', h', fx' :=
      Failing(state, id), FailingHist(hist, id), FailEffects(fx, Life(id, Failing(state, id)[id].occ), ok);
    forall j | j in s'
      ensures Clean(j, s'[j], h'[j], fx') && (!s'[j].failed ==> Stored(j, s'[j].occ, h'[j].counted, fx'))
      ensures KeptOne(j, s'[j], h'[j], keepSettled, fx')
    {
      if j != id { assert Clean(j, state[j], hist[j], fx) && KeptOne(j, state[j], hist[j], keepSettled, fx); }
    }
  }

  lemma FailKeepsOwed(state: map<Id, Entry>, fx: Effects, id: Id, ok: bool)
    requires Owed(state, fx) && Bounded(state, fx)
    ensures Owed(Failing(state, id), FailEffects(fx, Life(id, Failing(state, id)[id].occ), ok))
    ensures Bounded(Failing(state, id), FailEffects(fx, Life(id, Failing(state, id)[id].occ), ok))
  {
    var s', fx' := Failing(state, id), FailEffects(fx, Life(id, Failing(state, id)[id].occ), ok);
    forall life | life in fx'.begun ensures life in fx'.settled || Open(s', life) {
      if life in fx.begun { assert life in fx.settled || Open(state, life); }
    }
    forall j | j in s' ensures Life(j, s'[j].occ) in fx'.begun && s'[j].occ <= fx'.top {
      if j in state { assert state[j].occ == s'[j].occ; }
    }
  }

  lemma FailKeepsBlame(state: map<Id, Entry>, fx: Effects, id: Id, ok: bool)
    requires Blamed(state, fx) && id in state && (state[id].partial || id in fx.clashed)
    ensures Blamed(Failing(state, id), FailEffects(fx, Life(id, Failing(state, id)[id].occ), ok))
  {
  }

  lemma GrowsSame(fx: Effects)
    ensures Grows(fx, fx)
  {
  }

  lemma GrowsOn(a: Effects, b: Effects, c: Effects)
    requires Grows(a, b) && Grows(b, c)
    ensures Grows(a, c)
  {
  }

  lemma FailKeepsTied(state: map<Id, Entry>, hist: map<Id, Hist>, queue: seq<Item>, plans: seq<Version>, id: Id)
    requires AllTied(state, hist, queue, plans)
    ensures AllTied(Failing(state, id), FailingHist(hist, id), Without(queue, id), plans)
  {
    var s', h' := Failing(state, id), FailingHist(hist, id);
    forall j | j in s' ensures Tied(s'[j], h'[j], Queue(Without(queue, id), j), plans) {
      WithoutQueue(queue, id, j);
      if j != id { assert Tied(state[j], hist[j], Queue(queue, j), plans); }
    }
  }

  // ------------------------------------------------------ asks and settlement

  /** More deletes were asked for, and nothing else changed. */
  ghost predicate Asks(a: Effects, b: Effects) {
    b == a.(asked := b.asked, askedAll := b.askedAll) && a.asked <= b.asked && a.askedAll <= b.askedAll
  }

  lemma AsksRest(
      state: map<Id, Entry>, hist: map<Id, Hist>, failed: nat, markFailed: bool, keepSettled: bool, mayDelete: bool,
      a: Effects, b: Effects)
    requires
      && Failures(state, failed, markFailed, a)
      && Owed(state, a)
      && AllServed(mayDelete, a)
      && Kept(state, hist, keepSettled, a)
      && Asks(a, b)
    ensures
      && Failures(state, failed, markFailed, b)
      && Owed(state, b)
      && AllServed(mayDelete, b)
      && Kept(state, hist, keepSettled, b)
      && Grows(a, b)
  {
    hide Served;
    AsksKept(state, hist, keepSettled, a, b);
    hide Kept;
    forall life | life in b.settled ensures Served(life, b.settled[life], mayDelete, b) {
      ServedGrows(life, a.settled[life], mayDelete, a, b);
    }
  }

  lemma AsksKept(state: map<Id, Entry>, hist: map<Id, Hist>, keepSettled: bool, a: Effects, b: Effects)
    requires Kept(state, hist, keepSettled, a) && Asks(a, b)
    ensures Kept(state, hist, keepSettled, b)
  {
    forall id | id in state ensures KeptOne(id, state[id], hist[id], keepSettled, b) {
      assert KeptOne(id, state[id], hist[id], keepSettled, a);
    }
  }

  ghost function AskEffects(fx: Effects, d: Doc): Effects {
    fx.(asked := fx.asked + {d})
  }

  /** Deleting a nil's document clashes with no write. */
  lemma AskKeeps(
      state: map<Id, Entry>, hist: map<Id, Hist>, failed: nat, markFailed: bool, keepSettled: bool, mayDelete: bool,
      fx: Effects, id: Id, v: Version)
    requires Sound(state, hist, failed, markFailed, keepSettled, mayDelete, fx)
    requires id in state && id in hist && !state[id].failed && v in hist[id].nils && hist[id].docs !! hist[id].nils
    ensures Sound(state, hist, failed, markFailed, keepSettled, mayDelete, AskEffects(fx, Doc(id, v, state[id].occ)))
    ensures Grows(fx, AskEffects(fx, Doc(id, v, state[id].occ)))
  {
    hide Failures, Owed, NoClash, AllClean, AllServed, Bounded, Kept, Grows;
    AskKeepsClean(state, hist, fx, id, v);
    AskKeepsClash(state, hist, fx, id, v);
    AsksRest(state, hist, failed, markFailed, keepSettled, mayDelete, fx, AskEffects(fx, Doc(id, v, state[id].occ)));
  }

  lemma AskKeepsClash(state: map<Id, Entry>, hist: map<Id, Hist>, fx: Effects, id: Id, v: Version)
    requires NoClash(fx) && AllClean(state, hist, fx) && Bounded(state, fx)
    requires id in state && !state[id].failed && v in hist[id].nils && hist[id].docs !! hist[id].nils
    ensures
      NoClash(AskEffects(fx, Doc(id, v, state[id].occ))) && Bounded(state, AskEffects(fx, Doc(id, v, state[id].occ)))
  {
    assert Clean(id, state[id], hist[id], fx);
  }

  lemma AskKeepsClean(state: map<Id, Entry>, hist: map<Id, Hist>, fx: Effects, id: Id, v: Version)
    requires AllClean(state, hist, fx) && id in state && v in hist[id].nils
    ensures AllClean(state, hist, AskEffects(fx, Doc(id, v, state[id].occ)))
  {
    var fx' := AskEffects(fx, Doc(id, v, state[id].occ));
    forall j | j in state
      ensures Clean(j, state[j], hist[j], fx') && (!state[j].failed ==> Stored(j, state[j].occ, hist[j].counted, fx'))
    {
      assert Clean(j, state[j], hist[j], fx);
    }
  }

  ghost function EraseEffects(fx: Effects, life: Life): Effects {
    fx.(askedAll := fx.askedAll + {life})
  }

  /** Deleting a resource whole clashes with no write when every expected plan
      found it gone. */
  lemma EraseKeeps(
      state: map<Id, Entry>, hist: map<Id, Hist>, failed: nat, markFailed: bool, keepSettled: bool, mayDelete: bool,
      fx: Effects, id: Id)
    requires Sound(state, hist, failed, markFailed, keepSettled, mayDelete, fx)
    requires id in state && id in hist && !state[id].failed && hist[id].docs == {} && hist[id].nils == hist[id].expected
    ensures Sound(state, hist, failed, markFailed, keepSettled, mayDelete, EraseEffects(fx, Life(id, state[id].occ)))
    ensures Grows(fx, EraseEffects(fx, Life(id, state[id].occ)))
  {
    hide Failures, Owed, NoClash, AllClean, AllServed, Bounded, Kept, Grows;
    EraseKeepsClean(state, hist, fx, id);
    EraseKeepsClash(state, hist, fx, id);
    AsksRest(state, hist, failed, markFailed, keepSettled, mayDelete, fx, EraseEffects(fx, Life(id, state[id].occ)));
  }

  lemma EraseKeepsClash(state: map<Id, Entry>, hist: map<Id, Hist>, fx: Effects, id: Id)
    requires NoClash(fx) && AllClean(state, hist, fx) && Bounded(state, fx)
    requires id in state && !state[id].failed && hist[id].docs == {} && hist[id].nils == hist[id].expected
    ensures
      NoClash(EraseEffects(fx, Life(id, state[id].occ))) && Bounded(state, EraseEffects(fx, Life(id, state[id].occ)))
  {
    assert Clean(id, state[id], hist[id], fx);
  }

  lemma EraseKeepsClean(state: map<Id, Entry>, hist: map<Id, Hist>, fx: Effects, id: Id)
    requires AllClean(state, hist, fx) && id in state && hist[id].docs == {} && hist[id].nils == hist[id].expected
    ensures AllClean(state, hist, EraseEffects(fx, Life(id, state[id].occ)))
  {
    var fx' := EraseEffects(fx, Life(id, state[id].occ));
    forall j | j in state
      ensures Clean(j, state[j], hist[j], fx') && (!state[j].failed ==> Stored(j, state[j].occ, hist[j].counted, fx'))
    {
      assert Clean(j, state[j], hist[j], fx);
    }
  }

  /** settle: a multi-plan walk keeps the entry, a single-plan walk drops it. */
  ghost function Settling(state: map<Id, Entry>, id: Id, how: Settlement, keepSettled: bool): map<Id, Entry>
    requires id in state
  {
    if keepSettled then state[id := state[id].(settled := how)] else state - {id}
  }

  ghost function SettlingHist(hist: map<Id, Hist>, id: Id, keepSettled: bool): map<Id, Hist> {
    if keepSettled then hist else hist - {id}
  }

  ghost function SettleEffects(fx: Effects, life: Life, h: Hist): Effects {
    fx.(settled := fx.settled[life := h])
  }

  ghost predicate MaySettle(
      state: map<Id, Entry>, hist: map<Id, Hist>, id: Id, how: Settlement, mayDelete: bool, fx: Effects)
  {
    && id in state
    && id in hist
    && !state[id].failed
    && state[id].settled == Unsettled
    && state[id].remaining == 0
    && !state[id].partial
    && how != Unsettled && (how == Completed <==> hist[id].docs != {})
    && Served(Life(id, state[id].occ), hist[id], mayDelete, fx)
  }

  lemma SettleKeepsTied(
      state: map<Id, Entry>, hist: map<Id, Hist>, queue: seq<Item>, plans: seq<Version>, id: Id, how: Settlement,
      keepSettled: bool, mayDelete: bool, fx: Effects)
    requires
      AllTied(state, hist, queue, plans) && MaySettle(state, hist, id, how, mayDelete, fx) && Queue(queue, id) == []
    ensures AllTied(Settling(state, id, how, keepSettled), SettlingHist(hist, id, keepSettled), queue, plans)
    ensures Blamed(state, fx) ==>
      Blamed(Settling(state, id, how, keepSettled), SettleEffects(fx, Life(id, state[id].occ), hist[id]))
  {
    var s', h' := Settling(state, id, how, keepSettled), SettlingHist(hist, id, keepSettled);
    forall j | j in s' ensures Tied(s'[j], h'[j], Queue(queue, j), plans) {
      assert Tied(state[j], hist[j], Queue(queue, j), plans);
    }
  }

  lemma SettleKeepsServed(
      state: map<Id, Entry>, hist: map<Id, Hist>, id: Id, how: Settlement, mayDelete: bool, fx: Effects)
    requires AllServed(mayDelete, fx) && MaySettle(state, hist, id, how, mayDelete, fx)
    requires Life(id, state[id].occ) !in fx.settled
    ensures AllServed(mayDelete, SettleEffects(fx, Life(id, state[id].occ), hist[id]))
    ensures Grows(fx, SettleEffects(fx, Life(id, state[id].occ), hist[id]))
  {
    var fx' := SettleEffects(fx, Life(id, state[id].occ), hist[id]);
    ServedGrows(Life(id, state[id].occ), hist[id], mayDelete, fx, fx');
    forall life | life in fx'.settled ensures Served(life, fx'.settled[life], mayDelete, fx') {
      if life in fx.settled { ServedGrows(life, fx.settled[life], mayDelete, fx, fx'); }
    }
  }

  lemma SettleKeepsOwed(
      state: map<Id, Entry>, hist: map<Id, Hist>, failed: nat, markFailed: bool, keepSettled: bool, fx: Effects, id: Id,
      how: Settlement)
    requires Failures(state, failed, markFailed, fx) && Owed(state, fx) && NoClash(fx) && Bounded(state, fx)
    requires id in state && id in hist && !state[id].failed
    ensures
      Failures(Settling(state, id, how, keepSettled), failed, markFailed,
        SettleEffects(fx, Life(id, state[id].occ), hist[id]))
    ensures Owed(Settling(state, id, how, keepSettled), SettleEffects(fx, Life(id, state[id].occ), hist[id]))
    ensures NoClash(SettleEffects(fx, Life(id, state[id].occ), hist[id]))
    ensures Bounded(Settling(state, id, how, keepSettled), SettleEffects(fx, Life(id, state[id].occ), hist[id]))
  {
    var s', fx' := Settling(state, id, how, keepSettled), SettleEffects(fx, Life(id, state[id].occ), hist[id]);
    forall life | life in fx'.begun ensures life in fx'.settled || Open(s', life) {
      assert life in fx.settled || Open(state, life);
    }
    forall j ensures j in fx'.failedIds <==> j in s' && s'[j].failed {
      assert j in fx.failedIds <==> j in state && state[j].failed;
    }
  }

  lemma SettleKeepsClean(
      state: map<Id, Entry>, hist: map<Id, Hist>, keepSettled: bool, fx: Effects, id: Id, how: Settlement)
    requires AllClean(state, hist, fx) && Kept(state, hist, keepSettled, fx) && id in state && how != Unsettled
    requires Life(id, state[id].occ) !in fx.settled
    ensures
      AllClean(Settling(state, id, how, keepSettled), SettlingHist(hist, id, keepSettled),
        SettleEffects(fx, Life(id, state[id].occ), hist[id]))
    ensures
      Kept(Settling(state, id, how, keepSettled), SettlingHist(hist, id, keepSettled), keepSettled,
        SettleEffects(fx, Life(id, state[id].occ), hist[id]))
  {
    var s', h', fx' :=
      Settling(state, id, how, keepSettled), SettlingHist(hist, id, keepSettled),
      SettleEffects(fx, Life(id, state[id].occ), hist[id]);
    forall j | j in s'
      ensures Clean(j, s'[j], h'[j], fx') && (!s'[j].failed ==> Stored(j, s'[j].occ, h'[j].counted, fx'))
    {
      assert Clean(j, state[j], hist[j], fx);
    }
    forall j | j in s' ensures KeptOne(j, s'[j], h'[j], keepSettled, fx') {
      if j != id { assert state[j] == s'[j]; }
    }
  }

  lemma SettleKeeps(
      state: map<Id, Entry>, hist: map<Id, Hist>, failed: nat, markFailed: bool, keepSettled: bool, mayDelete: bool,
      fx: Effects, id: Id, how: Settlement)
    requires Sound(state, hist, failed, markFailed, keepSettled, mayDelete, fx)
    requires MaySettle(state, hist, id, how, mayDelete, fx)
    requires Life(id, state[id].occ) !in fx.settled
    ensures Sound(Settling(state, id, how, keepSettled), SettlingHist(hist, id, keepSettled), failed, markFailed,
                  keepSettled, mayDelete,
                  SettleEffects(fx, Life(id, state[id].occ), hist[id]))
    ensures Grows(fx, SettleEffects(fx, Life(id, state[id].occ), hist[id]))
  {
    hide Failures, Owed, NoClash, AllClean, AllServed, Bounded, Kept, Served, Grows;
    SettleKeepsServed(state, hist, id, how, mayDelete, fx);
    SettleKeepsOwed(state, hist, failed, markFailed, keepSettled, fx, id, how);
    SettleKeepsClean(state, hist, keepSettled, fx, id, how);
  }

  /** A queue that lost only documents of failed ids. */
  ghost predicate Trimmed(was: seq<Item>, now: seq<Item>, state: map<Id, Entry>) {
    && (forall it {:trigger it in now} :: it in now ==> it in was)
    && (forall id {:trigger Queue(now, id)} {:trigger Queue(was, id)} ::
          Queue(now, id) == Queue(was, id) || (Queue(now, id) == [] && id in state && state[id].failed))
  }

  lemma TrimmedWithout(items: seq<Item>, id: Id, state: map<Id, Entry>)
    requires id in state && state[id].failed
    ensures Trimmed(items, Without(items, id), state)
  {
    forall it ensures it in Without(items, id) ==> it in items { WithoutMember(items, id, it); }
    forall j
      ensures Queue(Without(items, id), j) == if j == id then [] else Queue(items, j)
    {
      WithoutQueue(items, id, j);
    }
  }

  /** The ids of `roots` may have failed, and nothing else moved. */
  ghost predicate SomeFailed(roots: set<Id>, was: map<Id, Entry>, now: map<Id, Entry>) {
    && now.Keys == was.Keys
    && forall id {:trigger was[id]} {:trigger now[id]} ::
         id in was ==> now[id] == was[id] || (id in roots && now[id] == was[id].(failed := true))
  }

  /** With nothing queued and nothing remaining, every expected plan has
      answered and every document is stored. */
  lemma Answered(e: Entry, h: Hist, plans: seq<Version>)
    requires Tied(e, h, [], plans) && !e.failed && e.remaining == 0
    ensures h.docs == h.counted && h.docs !! h.nils && h.docs + h.nils == h.expected
  {
    Remaining(h.nils, h.counted, h.expected);
    var none: seq<Version> := [];
    assert Flows(h, none, plans);
    assert forall v :: v in h.docs <==> v in h.counted || v in none;
  }

}
