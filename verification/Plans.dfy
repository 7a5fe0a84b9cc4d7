// What the plans answer: one plan's stream, all plans' outcomes for each id,
// and which plans a rebuild runs.

module Plans {
  import opened Wrappers
  import opened Rows

  type Id = string

  /** A plan's answer for one id: a document, an explicit nil, or an error. */
  datatype Said = SaidDoc | SaidNil | SaidErr

  datatype Item = Item(id: Id, said: Said)

  /** One result of a plan's run: an execution error, or some items. */
  datatype Page = Page(failed: bool, items: seq<Item>)

  datatype Plan = Plan(version: Version, active: bool)

  function ItemsOf(stream: seq<Page>): (r: seq<Item>) {
    if stream == [] then [] else ItemsOf(stream[..|stream| - 1]) + stream[|stream| - 1].items
  }

  /** Every item answers an id that was asked, and none is answered twice. */
  ghost predicate Proper(items: seq<Item>, ids: seq<Id>) {
    && (forall i :: 0 <= i < |items| ==> items[i].id in ids)
    && (forall i, j :: 0 <= i < j < |items| ==> items[i].id != items[j].id)
  }

  ghost predicate Clean(stream: seq<Page>, ids: seq<Id>) {
    (forall p :: p in stream ==> !p.failed) && Proper(ItemsOf(stream), ids)
  }

  /** The plan said this, in so many words. */
  ghost predicate Explicit(stream: seq<Page>, id: Id, said: Said) {
    Item(id, said) in ItemsOf(stream)
  }

  /** What an id's answer must be: the plan's own, or an error when it left the
      id unanswered. */
  ghost predicate AnswerIs(items: seq<Item>, id: Id, said: Said) {
    Item(id, said) in items || (said == SaidErr && forall s :: Item(id, s) !in items)
  }

  lemma ProperPrefix(items: seq<Item>, more: seq<Item>, ids: seq<Id>)
    requires !Proper(items, ids)
    ensures !Proper(items + more, ids)
  {
    if Proper(items + more, ids) {
      forall i | 0 <= i < |items| ensures items[i].id in ids { assert (items + more)[i] == items[i]; }
      forall i, j | 0 <= i < j < |items| ensures items[i].id != items[j].id {
        assert (items + more)[i] == items[i] && (items + more)[j] == items[j];
      }
      assert false;
    }
  }

  lemma {:induction false} ItemsPrefix(stream: seq<Page>, k: nat, ids: seq<Id>)
    requires k <= |stream| && !Proper(ItemsOf(stream[..k]), ids)
    ensures !Proper(ItemsOf(stream), ids)
    decreases |stream| - k
  {
    if k < |stream| {
      assert stream[..k + 1][..k] == stream[..k];
      ProperPrefix(ItemsOf(stream[..k]), stream[k].items, ids);
      ItemsPrefix(stream, k + 1, ids);
    } else {
      assert stream[..k] == stream;
    }
  }

  /** executePlan: one answer per asked id; an error of the run, or an answer of
      an id not asked about or answered before, fails the call. */
  method ExecutePlan(stream: seq<Page>, ids: seq<Id>) returns (r: Result<map<Id, Said>>)
    ensures r.Ok? <==> Clean(stream, ids)
    ensures r.Ok? ==> r.value.Keys == (set id | id in ids)
    ensures r.Ok? ==> forall id :: id in ids ==> AnswerIs(ItemsOf(stream), id, r.value[id])
  {
    hide Proper;
    var answers: map<Id, Said> := map[];
    ProperNone(ids);
    for i := 0 to |stream|
      invariant forall p :: p in stream[..i] ==> !p.failed
      invariant Proper(ItemsOf(stream[..i]), ids) && AnswersSo(answers, ItemsOf(stream[..i]))
    {
      assert stream[..i + 1] == stream[..i] + [stream[i]] && stream[..i + 1][..i] == stream[..i];
      if stream[i].failed {
        assert stream[i] in stream;
        return Err;
      }
      var ok;
      ok, answers := TakeItems(ItemsOf(stream[..i]), stream[i].items, ids, answers);
      if !ok {
        ItemsPrefix(stream, i + 1, ids);
        return Err;
      }
    }
    assert stream[..|stream|] == stream;
    r := Ok(map id | id in ids :: if id in answers then answers[id] else SaidErr);
  }

  lemma ProperNone(ids: seq<Id>)
    ensures Proper([], ids)
  {
  }

  /** The answers so far are the items' own. */
  ghost predicate AnswersSo(answers: map<Id, Said>, items: seq<Item>) {
    && (forall id :: id in answers ==> Item(id, answers[id]) in items)
    && (forall it :: it in items ==> it.id in answers)
  }

  method TakeItems(ghost before: seq<Item>, items: seq<Item>, ids: seq<Id>, answers: map<Id, Said>)
    returns (ok: bool, answers': map<Id, Said>)
    requires Proper(before, ids) && AnswersSo(answers, before)
    ensures ok <==> Proper(before + items, ids)
    ensures ok ==> AnswersSo(answers', before + items)
  {
    answers' := answers;
    assert before + items[..0] == before;
    for j := 0 to |items|
      invariant Proper(before + items[..j], ids) && AnswersSo(answers', before + items[..j])
    {
      var it := items[j];
      ghost var seen := before + items[..j];
      assert before + items[..j + 1] == seen + [it];
      assert before + items == (seen + [it]) + items[j + 1..];
      if it.id !in ids || it.id in answers' {
        RepeatImproper(seen, it, ids);
        ProperPrefix(seen + [it], items[j + 1..], ids);
        return false, answers';
      }
      answers' := answers'[it.id := it.said];
    }
    assert items[..|items|] == items;
    ok := true;
  }

  lemma RepeatImproper(seen: seq<Item>, it: Item, ids: seq<Id>)
    requires it.id !in ids || exists o :: o in seen && o.id == it.id
    ensures !Proper(seen + [it], ids)
  {
    var all := seen + [it];
    assert all[|seen|] == it;
    if it.id in ids {
      var o :| o in seen && o.id == it.id;
      var i :| 0 <= i < |seen| && seen[i] == o;
      assert all[i].id == all[|seen|].id;
    }
  }

  // ----------------------------------------------------------- all the plans

  /** An id's outcome over every active plan: the versions whose plan built a
      document and those whose plan returned nil, or an error, with neither. */
  datatype Outcome = Outcome(docs: seq<Version>, missing: seq<Version>, err: bool)

  /** The versions of the first n plans that said so, in plan order. */
  ghost function Saying(plans: seq<Plan>, answers: seq<map<Id, Said>>, n: nat, id: Id, said: Said): seq<Version>
    requires n <= |plans| == |answers| && forall a :: a in answers ==> id in a
  {
    if n == 0 then []
    else
      Saying(plans, answers, n - 1, id, said) +
        if plans[n - 1].active && answers[n - 1][id] == said then [plans[n - 1].version] else []
  }

  ghost function ActiveVersions(plans: seq<Plan>, n: nat): seq<Version>
    requires n <= |plans|
  {
    if n == 0 then [] else ActiveVersions(plans, n - 1) + if plans[n - 1].active then [plans[n - 1].version] else []
  }

  /** What an id's outcome means, given each plan's answers. */
  ghost predicate OutcomeIs(plans: seq<Plan>, answers: seq<map<Id, Said>>, n: nat, id: Id, o: Outcome)
    requires n <= |plans| == |answers| && forall a :: a in answers ==> id in a
  {
    && (o.err <==> exists k :: 0 <= k < n && plans[k].active && answers[k][id] == SaidErr)
    && if o.err then o.docs == [] && o.missing == []
       else o.docs == Saying(plans, answers, n, id, SaidDoc) && o.missing == Saying(plans, answers, n, id, SaidNil)
  }

  ghost function Plus(s: seq<Version>, more: bool, v: Version): seq<Version> {
    s + if more then [v] else []
  }

  lemma SayingStep(plans: seq<Plan>, answers: seq<map<Id, Said>>, n: nat, id: Id, said: Said)
    requires 0 < n <= |plans| == |answers| && forall a :: a in answers ==> id in a
    ensures Saying(plans, answers, n, id, said) ==
            Plus(Saying(plans, answers, n - 1, id, said), plans[n - 1].active && answers[n - 1][id] == said,
              plans[n - 1].version)
  {
  }

  lemma ActiveStep(plans: seq<Plan>, n: nat)
    requires 0 < n <= |plans|
    ensures ActiveVersions(plans, n) == Plus(ActiveVersions(plans, n - 1), plans[n - 1].active, plans[n - 1].version)
  {
  }

  lemma OneMore(docs: seq<Version>, nils: seq<Version>, active: seq<Version>, p: Plan, said: Said)
    requires multiset(docs) + multiset(nils) == multiset(active) && (p.active ==> said != SaidErr)
    ensures
      multiset(Plus(docs, p.active && said == SaidDoc, p.version)) +
        multiset(Plus(nils, p.active && said == SaidNil, p.version))
            == multiset(Plus(active, p.active, p.version))
  {
    assert docs + [] == docs && nils + [] == nils && active + [] == active;
  }

  /** The versions with a document and those with a nil are, together and once
      each, the active ones. */
  ghost predicate Partition(plans: seq<Plan>, answers: seq<map<Id, Said>>, n: nat, id: Id)
    requires n <= |plans| == |answers| && forall a :: a in answers ==> id in a
  {
    multiset(Saying(plans, answers, n, id, SaidDoc)) + multiset(Saying(plans, answers, n, id, SaidNil)) ==
      multiset(ActiveVersions(plans, n))
  }

  /** Documents and nils partition the active versions of an id no plan failed. */
  lemma {:induction false} DocsAndMissing(plans: seq<Plan>, answers: seq<map<Id, Said>>, n: nat, id: Id)
    requires n <= |plans| == |answers| && (forall a :: a in answers ==> id in a)
    requires forall k :: 0 <= k < n && plans[k].active ==> answers[k][id] != SaidErr
    ensures Partition(plans, answers, n, id)
  {
    hide Partition;
    if n == 0 {
      NothingSaid(plans, answers, id);
    } else {
      DocsAndMissing(plans, answers, n - 1, id);
      PartitionStep(plans, answers, n, id);
    }
  }

  lemma NothingSaid(plans: seq<Plan>, answers: seq<map<Id, Said>>, id: Id)
    requires |plans| == |answers| && forall a :: a in answers ==> id in a
    ensures Partition(plans, answers, 0, id)
  {
  }

  lemma PartitionStep(plans: seq<Plan>, answers: seq<map<Id, Said>>, n: nat, id: Id)
    requires 0 < n <= |plans| == |answers| && (forall a :: a in answers ==> id in a)
    requires Partition(plans, answers, n - 1, id) && (plans[n - 1].active ==> answers[n - 1][id] != SaidErr)
    ensures Partition(plans, answers, n, id)
  {
    hide Saying, ActiveVersions, Plus;
    SayingStep(plans, answers, n, id, SaidDoc);
    SayingStep(plans, answers, n, id, SaidNil);
    ActiveStep(plans, n);
    OneMore(Saying(plans, answers, n - 1, id, SaidDoc), Saying(plans, answers, n - 1, id, SaidNil),
            ActiveVersions(plans, n - 1),
            plans[n - 1], answers[n - 1][id]);
  }

  /** With no document, no error and some nil, every active plan said nil. */
  lemma {:induction false} GoneMeans(plans: seq<Plan>, answers: seq<map<Id, Said>>, n: nat, id: Id)
    requires n <= |plans| == |answers| && (forall a :: a in answers ==> id in a)
    requires Saying(plans, answers, n, id, SaidDoc) == []
    requires forall k :: 0 <= k < n && plans[k].active ==> answers[k][id] != SaidErr
    ensures forall k :: 0 <= k < n && plans[k].active ==> answers[k][id] == SaidNil
  {
    if n > 0 { GoneMeans(plans, answers, n - 1, id); }
  }

  ghost predicate AllClean(plans: seq<Plan>, streams: seq<seq<Page>>, ids: seq<Id>)
    requires |streams| == |plans|
  {
    forall k :: 0 <= k < |plans| && plans[k].active ==> Clean(streams[k], ids)
  }

  /** An inactive plan is not asked; its answers stand for nothing. */
  ghost predicate AnswersOf(
      plans: seq<Plan>, streams: seq<seq<Page>>, ids: seq<Id>, answers: seq<map<Id, Said>>, n: nat)
    requires n <= |plans| == |streams| && |answers| == n
  {
    forall k, id ::
      0 <= k < n && id in ids ==>
        id in answers[k] && (plans[k].active ==> AnswerIs(ItemsOf(streams[k]), id, answers[k][id]))
  }

  /** Every asked id's outcome is what the first k plans' answers mean. */
  ghost predicate OutcomesSo(plans: seq<Plan>, answers: seq<map<Id, Said>>, ids: seq<Id>, outcomes: map<Id, Outcome>) {
    && |answers| == |plans| && outcomes.Keys == (set id | id in ids)
    && forall id ::
         id in ids ==> (forall a :: a in answers ==> id in a) && OutcomeIs(plans, answers, |plans|, id, outcomes[id])
  }

  /** executeAllPlans: every active plan is asked once, and the call fails with
      no outcomes if one plan's call fails. */
  method ExecuteAllPlans(plans: seq<Plan>, streams: seq<seq<Page>>, ids: seq<Id>)
    returns (r: Result<map<Id, Outcome>>, ghost answers: seq<map<Id, Said>>)
    requires |streams| == |plans|
    ensures r.Ok? <==> AllClean(plans, streams, ids)
    ensures r.Ok? ==> OutcomesSo(plans, answers, ids, r.value) && AnswersOf(plans, streams, ids, answers, |plans|)
  {
    hide Clean, OutcomesSo, AnswersOf;
    var outcomes := map id | id in ids :: Outcome([], [], false);
    answers := [];
    StartOutcomes(plans, streams, ids, outcomes);
    for k := 0 to |plans|
      invariant |answers| == k && AnswersOf(plans, streams, ids, answers, k)
      invariant forall j :: 0 <= j < k && plans[j].active ==> Clean(streams[j], ids)
      invariant outcomes.Keys == set id | id in ids
      invariant OutcomesSo(plans[..k], answers, ids, outcomes)
    {
      if !plans[k].active {
        ghost var none := map id | id in ids :: SaidErr;
        NextOutcomes(plans, streams, answers, none, k, ids, outcomes, outcomes);
        answers := answers + [none];
        continue;
      }
      var said := ExecutePlan(streams[k], ids);
      if said.Err? {
        return Err, answers;
      }
      var next := map id | id in outcomes :: Taking(outcomes[id], plans[k].version, said.value[id]);
      NextOutcomes(plans, streams, answers, said.value, k, ids, outcomes, next);
      outcomes := next;
      answers := answers + [said.value];
    }
    assert plans[..|plans|] == plans;
    r := Ok(outcomes);
  }

  lemma StartOutcomes(plans: seq<Plan>, streams: seq<seq<Page>>, ids: seq<Id>, outcomes: map<Id, Outcome>)
    requires |streams| == |plans| && outcomes == map id | id in ids :: Outcome([], [], false)
    ensures OutcomesSo(plans[..0], [], ids, outcomes) && AnswersOf(plans, streams, ids, [], 0)
  {
  }

  lemma NextOutcomes(
      plans: seq<Plan>, streams: seq<seq<Page>>, answers: seq<map<Id, Said>>, answer: map<Id, Said>, k: nat,
      ids: seq<Id>, outcomes: map<Id, Outcome>, next: map<Id, Outcome>)
    requires k < |plans| == |streams| && |answers| == k && OutcomesSo(plans[..k], answers, ids, outcomes)
    requires
      AnswersOf(plans, streams, ids, answers, k) && answer.Keys == (set id | id in ids) && next.Keys == outcomes.Keys
    requires forall id :: id in ids ==> plans[k].active ==> AnswerIs(ItemsOf(streams[k]), id, answer[id])
    requires forall id ::
      id in ids ==>
        next[id] == if plans[k].active then Taking(outcomes[id], plans[k].version, answer[id]) else outcomes[id]
    ensures OutcomesSo(plans[..k + 1], answers + [answer], ids, next)
    ensures AnswersOf(plans, streams, ids, answers + [answer], k + 1)
  {
    hide AnswerIs, OutcomeIs;
    forall id | id in ids
      ensures
        && (forall a :: a in answers + [answer] ==> id in a)
        && OutcomeIs(plans[..k + 1], answers + [answer], k + 1, id, next[id])
    {
      NextPlan(plans, answers, answer, k, id, outcomes[id], next[id]);
    }
  }

  /** One plan's answer enters an id's outcome. */
  function Taking(o: Outcome, v: Version, said: Said): Outcome {
    if o.err then o
    else
      match said
      case SaidErr => Outcome([], [], true)
      case SaidNil => o.(missing := o.missing + [v])
      case SaidDoc => o.(docs := o.docs + [v])
  }

  lemma NextPlan(
      plans: seq<Plan>, answers: seq<map<Id, Said>>, answer: map<Id, Said>, k: nat, id: Id, o: Outcome, o': Outcome)
    requires k < |plans| && |answers| == k && (forall a :: a in answers ==> id in a) && id in answer
    requires OutcomeIs(plans[..k], answers, k, id, o)
    requires o' == if plans[k].active then Taking(o, plans[k].version, answer[id]) else o
    ensures forall a :: a in answers + [answer] ==> id in a
    ensures OutcomeIs(plans[..k + 1], answers + [answer], k + 1, id, o')
  {
    var all := answers + [answer];
    assert forall a :: a in all ==> a in answers || a == answer;
    SayingMore(plans, answers, answer, k, k, id, SaidDoc);
    SayingMore(plans, answers, answer, k, k, id, SaidNil);
    assert all[k] == answer && plans[..k + 1][k] == plans[k];
    assert forall j :: 0 <= j < k ==> all[j] == answers[j] && plans[..k + 1][j] == plans[..k][j];
    if o'.err && !o.err { assert plans[..k + 1][k].active && all[k][id] == SaidErr; }
    if o.err {
      var j :| 0 <= j < k && plans[..k][j].active && answers[j][id] == SaidErr;
      assert plans[..k + 1][j].active && all[j][id] == SaidErr;
    }
  }

  lemma {:induction false} SayingMore(
      plans: seq<Plan>, answers: seq<map<Id, Said>>, answer: map<Id, Said>, k: nat, n: nat, id: Id, said: Said)
    requires n <= k < |plans| && |answers| == k && (forall a :: a in answers ==> id in a) && id in answer
    ensures forall a :: a in answers + [answer] ==> id in a
    ensures Saying(plans[..k + 1], answers + [answer], n, id, said) == Saying(plans[..k], answers, n, id, said)
  {
    assert forall a :: a in answers + [answer] ==> a in answers || a == answer;
    if n > 0 {
      SayingMore(plans, answers, answer, k, n - 1, id, said);
      assert (answers + [answer])[n - 1] == answers[n - 1];
    }
  }

  // ---------------------------------------------------- the plans of a rebuild

  function CountActive(plans: seq<Plan>): nat {
    if plans == [] then 0 else CountActive(plans[..|plans| - 1]) + if plans[|plans| - 1].active then 1 else 0
  }

  function Selected(plans: seq<Plan>, want: set<Version>): seq<Plan> {
    if plans == [] then []
    else
      var last := plans[|plans| - 1];
      Selected(plans[..|plans| - 1], want) + if last.version in want then [last] else []
  }

  /** plansForRebuild, for plans of distinct versions: no selection runs every
      plan, and a version without a plan is refused. */
  method PlansForRebuild(plans: seq<Plan>, versions: seq<Version>) returns (r: Result<seq<Plan>>)
    requires forall i, j :: 0 <= i < j < |plans| ==> plans[i].version != plans[j].version
    ensures r.Err? <==> plans == [] || exists v :: v in versions && forall p :: p in plans ==> p.version != v
    ensures r.Ok? ==> r.value == if versions == [] then plans else Selected(plans, set v | v in versions)
  {
    if plans == [] {
      return Err;
    }
    if versions == [] {
      return Ok(plans);
    }
    var want := set v | v in versions;
    ghost var all := want;
    var selected: seq<Plan> := [];
    for i := 0 to |plans|
      invariant selected == Selected(plans[..i], all)
      invariant forall v :: v in want <==> v in all && forall p :: p in plans[..i] ==> p.version != v
    {
      assert plans[..i + 1] == plans[..i] + [plans[i]] && plans[..i + 1][..i] == plans[..i];
      if plans[i].version in want {
        selected := selected + [plans[i]];
        want := want - {plans[i].version};
      } else {
        NotTwice(plans, i);
      }
    }
    assert plans[..|plans|] == plans;
    if v :| v in want {
      return Err;
    }
    forall v | v in versions ensures exists p :: p in plans && p.version == v {
      assert v in all && v !in want;
    }
    r := Ok(selected);
  }

  lemma NotTwice(plans: seq<Plan>, i: nat)
    requires i < |plans| && forall i, j :: 0 <= i < j < |plans| ==> plans[i].version != plans[j].version
    ensures forall p :: p in plans[..i] ==> p.version != plans[i].version
  {
  }

  /** runsEveryActivePlan: the counts agree exactly when every active plan is
      selected, which is when a rebuild may remove a row. */
  lemma RunsEveryActive(plans: seq<Plan>, want: set<Version>)
    ensures CountActive(Selected(plans, want)) == CountActive(plans) <==>
      forall p :: p in plans && p.active ==> p.version in want
  {
    SelectedCount(plans, want);
  }

  lemma CountAppend(plans: seq<Plan>, p: Plan)
    ensures CountActive(plans + [p]) == CountActive(plans) + if p.active then 1 else 0
  {
    assert (plans + [p])[..|plans|] == plans;
  }

  lemma {:induction false} SelectedCount(plans: seq<Plan>, want: set<Version>)
    ensures CountActive(Selected(plans, want)) <= CountActive(plans)
    ensures CountActive(Selected(plans, want)) == CountActive(plans) <==>
      forall p :: p in plans && p.active ==> p.version in want
  {
    if plans != [] {
      var n := |plans| - 1;
      var before, last := Selected(plans[..n], want), plans[n];
      SelectedCount(plans[..n], want);
      assert plans == plans[..n] + [last];
      assert before + [] == before;
      CountAppend(before, last);
      CountAppend(plans[..n], last);
    }
  }
}
