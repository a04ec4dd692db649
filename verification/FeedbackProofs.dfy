/** Stored answers stay well-typed against questions that could be edited until first answered. */
module FeedbackProofs {
  import opened Base
  import opened Text
  import opened Feedback

  // ----- Invariant -----

  /** Exactly the value field of the answer's kind is set. */
  predicate FieldsMatch(a: Answer) {
    && (a.kind.ShortText? <==> a.text.Some?)
    && (a.kind.SingleChoice? <==> a.choice.Some?)
    && (a.kind.Number? <==> a.number.Some?)
    && (a.text.Some? ==> a.text.value != "" && Tight(a.text.value))
  }

  predicate Typed(items: map<Id, Item>, choices: map<Id, Choice>, i: Id, a: Answer) {
    && i in items && items[i].locked && items[i].session == a.session && items[i].kind == a.kind
    && FieldsMatch(a)
    && (a.choice.Some? ==>
          && a.choice.value in choices && choices[a.choice.value].item == i
          && choices[a.choice.value].session == a.session)
  }

  /** The columns that an answer copies from its submission. */
  predicate Copied(sub: Submission, a: Answer) {
    a.session == sub.session && a.origin == sub.origin && a.author == sub.author && a.recorder == sub.recorder
    && a.status == sub.status
  }

  ghost predicate AnswersOk(db: Db) {
    forall k :: k in db.answers ==>
      && k.submission in db.submissions && Copied(db.submissions[k.submission], db.answers[k])
      && Typed(db.items, db.choices, k.item, db.answers[k])
  }

  ghost predicate RowOk(participants: set<(Id, Id)>, sub: Submission) {
    && (sub.origin.Direct? <==> sub.author.Some?)
    && (sub.author.Some? ==> sub.recorder == sub.author.value && (sub.session, sub.recorder) in participants)
    && (sub.author.None? ==> sub.status.Submitted?)
    && (sub.origin.TemporaryAlias? <==> sub.alias.Some?)
  }

  ghost predicate SubmissionsOk(db: Db) {
    && (forall s :: s in db.submissions ==> RowOk(db.participants, db.submissions[s]))
    && (forall s :: s in db.linked ==> s in db.submissions && db.submissions[s].status.Submitted?)
  }

  ghost predicate ChoiceOk(items: map<Id, Item>, c: Choice) {
    c.item in items && items[c.item].session == c.session && items[c.item].kind.SingleChoice?
  }

  ghost predicate ChoicesOk(db: Db) {
    forall c :: c in db.choices ==> ChoiceOk(db.items, db.choices[c])
  }

  ghost predicate Inv(db: Db) {
    AnswersOk(db) && SubmissionsOk(db) && OneDirect(db.submissions) && ChoicesOk(db)
  }

  // ----- Questions -----

  lemma ItemKeepsChoices(db: Db, i: Id, item: Item, kept: map<Id, Choice>, options: seq<string>, ids: seq<Id>)
    requires ChoicesOk(db) && NewIds(ids, options, db.choices) && (options == [] || item.kind.SingleChoice?)
    requires kept == WithoutItem(db.choices, i)
    ensures ChoicesOk(AfterItem(db, i, item, kept, options, ids))
  {
  }

  /** A question that is new or was never answered may change in any way. */
  lemma ItemKeepsInv(db: Db, i: Id, item: Item, kept: map<Id, Choice>, options: seq<string>, ids: seq<Id>)
    requires Inv(db) && NewIds(ids, options, db.choices) && (options == [] || item.kind.SingleChoice?)
    requires kept == WithoutItem(db.choices, i) && (i in db.items ==> !db.items[i].locked)
    ensures Inv(AfterItem(db, i, item, kept, options, ids))
  {
    var v := AfterItem(db, i, item, kept, options, ids);
    ItemKeepsChoices(db, i, item, kept, options, ids);
    forall k | k in v.answers ensures Typed(v.items, v.choices, k.item, v.answers[k]) {
      assert Typed(db.items, db.choices, k.item, db.answers[k]);
    }
  }

  lemma DeletedItemKeepsInv(db: Db, i: Id)
    requires Inv(db) && i in db.items && !db.items[i].locked
    ensures Inv(AfterDelete(db, i))
  {
    var v := AfterDelete(db, i);
    forall k | k in v.answers ensures Typed(v.items, v.choices, k.item, v.answers[k]) {
      assert Typed(db.items, db.choices, k.item, db.answers[k]);
    }
  }

  // ----- Submissions -----

  lemma FittingAnswerIsTyped(db: Db, sub: Submission, d: AnswerDraft, items: map<Id, Item>)
    requires FitsItem(db.items, db.choices, sub.session, d)
    requires d.item in items && items[d.item] == db.items[d.item].(locked := true)
    ensures Typed(items, db.choices, d.item, StoredAnswer(sub, NormalAnswer(d)))
  {
    if d.text.Some? { var front, back := TrimmedParts(d.text.value); }
  }

  /** Each row stands for one of the answers. */
  lemma {:induction false} RowFrom(s: Id, sub: Submission, ds: seq<AnswerDraft>, n: nat, k: Slot) returns (j: nat)
    requires n <= |ds| && k in RowsUpTo(s, sub, ds, n)
    ensures j < n && k == Slot(s, ds[j].item) && RowsUpTo(s, sub, ds, n)[k] == StoredAnswer(sub, ds[j])
  {
    if k == Slot(s, ds[n - 1].item) { j := n - 1; } else { j := RowFrom(s, sub, ds, n - 1, k); }
  }

  /** Each answer has its row. */
  lemma {:induction false} RowFor(s: Id, sub: Submission, ds: seq<AnswerDraft>, n: nat, j: nat)
    requires j < n <= |ds| && OnePerItem(ds)
    ensures Slot(s, ds[j].item) in RowsUpTo(s, sub, ds, n)
    ensures RowsUpTo(s, sub, ds, n)[Slot(s, ds[j].item)] == StoredAnswer(sub, ds[j])
  {
    if j >= n - 1 {
    } else {
      RowFor(s, sub, ds, n - 1, j);
    }
  }

  lemma {:induction false} LockedFrom(ds: seq<AnswerDraft>, n: nat, i: Id) returns (j: nat)
    requires n <= |ds| && i in ItemsUpTo(ds, n)
    ensures j < n && ds[j].item == i
  {
    if i == ds[n - 1].item { j := n - 1; } else { j := LockedFrom(ds, n - 1, i); }
  }

  lemma WrittenAnswer(db: Db, s: Id, sub: Submission, ds: seq<AnswerDraft>, k: Slot)
    requires Acceptable(db.items, db.choices, sub.session, ds) && OnePerItem(NormalAnswers(ds))
    requires k in Rows(s, sub, NormalAnswers(ds))
    ensures var a := Rows(s, sub, NormalAnswers(ds))[k];
            Copied(sub, a) && Typed(Locked(db.items, ItemsOf(NormalAnswers(ds))), db.choices, k.item, a)
  {
    var ns := NormalAnswers(ds);
    var j := RowFrom(s, sub, ns, |ns|, k);
    assert ns[j] == NormalAnswer(ds[j]);
    assert FitsItem(db.items, db.choices, sub.session, ds[j]);
    assert ns[j].item in ItemsOf(ns);
    FittingAnswerIsTyped(db, sub, ds[j], Locked(db.items, ItemsOf(ns)));
  }

  lemma SubmitKeepsAnswers(db: Db, s: Id, sub: Submission, ds: seq<AnswerDraft>)
    requires Inv(db) && Acceptable(db.items, db.choices, sub.session, ds) && OnePerItem(NormalAnswers(ds))
    ensures AnswersOk(AfterSubmit(db, s, sub, NormalAnswers(ds)))
  {
    var v := AfterSubmit(db, s, sub, NormalAnswers(ds));
    forall k | k in v.answers
      ensures && k.submission in v.submissions && Copied(v.submissions[k.submission], v.answers[k])
              && Typed(v.items, v.choices, k.item, v.answers[k])
    {
      if k.submission == s {
        WrittenAnswer(db, s, sub, ds, k);
      } else {
        assert Typed(db.items, db.choices, k.item, db.answers[k]);
      }
    }
  }

  lemma SubmitKeepsInv(db: Db, s: Id, sub: Submission, ds: seq<AnswerDraft>)
    requires Inv(db) && Acceptable(db.items, db.choices, sub.session, ds) && OnePerItem(NormalAnswers(ds))
    requires RowOk(db.participants, sub) && (s in db.linked ==> sub.status.Submitted?)
    requires OneDirect(db.submissions[s := sub])
    ensures Inv(AfterSubmit(db, s, sub, NormalAnswers(ds)))
  {
    SubmitKeepsAnswers(db, s, sub, ds);
  }

  lemma NewSubmissionKeepsInv(db: Db, s: Id, sub: Submission, ds: seq<AnswerDraft>)
    requires Inv(db) && Acceptable(db.items, db.choices, sub.session, ds) && OnePerItem(NormalAnswers(ds))
    requires s !in db.submissions && RowOk(db.participants, sub)
    requires sub.author.Some? ==> NoDirect(db, sub.session, sub.author.value)
    ensures Inv(AfterSubmit(db, s, sub, NormalAnswers(ds)))
  {
    SubmitKeepsInv(db, s, sub, ds);
  }

  lemma ChangedSubmissionKeepsInv(db: Db, s: Id, sub: Submission, ds: seq<AnswerDraft>)
    requires Inv(db) && Acceptable(db.items, db.choices, sub.session, ds) && OnePerItem(NormalAnswers(ds))
    requires s in db.submissions && RowOk(db.participants, sub) && (s in db.linked ==> sub.status.Submitted?)
    requires sub.session == db.submissions[s].session && sub.author == db.submissions[s].author
    ensures Inv(AfterSubmit(db, s, sub, NormalAnswers(ds)))
  {
    SubmitKeepsInv(db, s, sub, ds);
  }

  lemma CreationKeepsInv(db: Db, a: Action)
    requires Inv(db) && Enabled(db, a) && (a.CreateDirect? || a.CreateOrganizer?)
    ensures Inv(Apply(db, a))
  {
    NormalOnePerItem(a.draft.answers);
    var sub := if a.CreateDirect? then DirectRow(a.session, a.actor, a.key, a.draft.status)
               else OrganizerRow(a.session, a.actor, a.key, a.draft);
    NewSubmissionKeepsInv(db, a.s, sub, a.draft.answers);
  }

  lemma DirectUpdateKeepsRow(participants: set<(Id, Id)>, sub: Submission, d: SubmissionDraft)
    requires RowOk(participants, sub) && sub.author.Some?
    ensures RowOk(participants, DirectUpdate(sub, d))
  {
  }

  lemma OrganizerUpdateKeepsRow(participants: set<(Id, Id)>, sub: Submission, d: SubmissionDraft)
    requires RowOk(participants, sub) && !sub.origin.Direct? && OrganizerDraft(d)
    ensures RowOk(participants, OrganizerUpdate(sub, d)) && OrganizerUpdate(sub, d).status.Submitted?
  {
  }

  lemma DirectUpdateKeepsInv(db: Db, s: Id, d: SubmissionDraft)
    requires Inv(db) && s in db.submissions && db.submissions[s].author.Some?
    requires Acceptable(db.items, db.choices, db.submissions[s].session, d.answers)
    requires OnePerItem(NormalAnswers(d.answers))
    requires d.status.Draft? ==> s !in db.linked
    ensures Inv(AfterSubmit(db, s, DirectUpdate(db.submissions[s], d), NormalAnswers(d.answers)))
  {
    DirectUpdateKeepsRow(db.participants, db.submissions[s], d);
    ChangedSubmissionKeepsInv(db, s, DirectUpdate(db.submissions[s], d), d.answers);
  }

  lemma OrganizerUpdateKeepsInv(db: Db, s: Id, d: SubmissionDraft)
    requires Inv(db) && s in db.submissions && !db.submissions[s].origin.Direct? && OrganizerDraft(d)
    requires Acceptable(db.items, db.choices, db.submissions[s].session, d.answers)
    requires OnePerItem(NormalAnswers(d.answers))
    ensures Inv(AfterSubmit(db, s, OrganizerUpdate(db.submissions[s], d), NormalAnswers(d.answers)))
  {
    OrganizerUpdateKeepsRow(db.participants, db.submissions[s], d);
    ChangedSubmissionKeepsInv(db, s, OrganizerUpdate(db.submissions[s], d), d.answers);
  }

  lemma StepKeepsInv(db: Db, a: Action)
    requires Inv(db) && Enabled(db, a)
    ensures Inv(Apply(db, a))
  {
    match a
    case CreateItem(session, i, key, d, ids) =>
      var n := NormalItem(d).value;
      assert WithoutItem(db.choices, i) == db.choices;
      ItemKeepsInv(db, i, NewItem(session, key, n), db.choices, n.options, ids);
    case UpdateItem(session, i, _, d, ids) =>
      var n := NormalItem(d).value;
      ItemKeepsInv(db, i, ChangedItem(db.items[i], n), WithoutItem(db.choices, i), n.options, ids);
    case DeleteItem(_, i) => DeletedItemKeepsInv(db, i);
    case CreateOrganizer(_, _, _, _, _) => CreationKeepsInv(db, a);
    case CreateDirect(_, _, _, _, _) => CreationKeepsInv(db, a);
    case UpdateOrganizer(_, s, _, _, d) => NormalOnePerItem(d.answers); OrganizerUpdateKeepsInv(db, s, d);
    case UpdateDirect(_, s, _, _, d) => NormalOnePerItem(d.answers); DirectUpdateKeepsInv(db, s, d);
    case _ =>
  }

  lemma {:induction false} RunKeepsInv(db: Db, run: seq<Action>)
    requires Inv(db) && Legal(db, run)
    ensures Inv(After(db, run))
    decreases |run|
  {
    if run == [] {
    } else {
      StepKeepsInv(db, run[0]);
      RunKeepsInv(Apply(db, run[0]), run[1..]);
    }
  }

  // ----- Results -----

  /** Every stored answer refers to an existing locked question of the same session and kind, sets
      exactly the matching value field, and an option in it belongs to the question. */
  lemma StoredAnswersAreTyped(db: Db, run: seq<Action>, k: Slot)
    requires Initial(db) && Legal(db, run) && k in After(db, run).answers
    ensures Typed(After(db, run).items, After(db, run).choices, k.item, After(db, run).answers[k])
  {
    RunKeepsInv(db, run);
  }

  lemma UnlockedHasNoAnswers(db: Db, run: seq<Action>, i: Id, k: Slot)
    requires Initial(db) && Legal(db, run)
    requires i in After(db, run).items && !After(db, run).items[i].locked && k in After(db, run).answers
    ensures k.item != i
  {
    RunKeepsInv(db, run);
  }

  function OptionsOf(db: Db, i: Id): map<Id, Choice> {
    map c | c in db.choices && db.choices[c].item == i :: db.choices[c]
  }

  lemma LockedStep(db: Db, a: Action, i: Id)
    requires Enabled(db, a) && i in db.items && db.items[i].locked
    ensures i in Apply(db, a).items && Apply(db, a).items[i] == db.items[i]
    ensures OptionsOf(Apply(db, a), i) == OptionsOf(db, i)
  {
    match a
    case CreateItem(_, _, _, _, ids) => NewOptionsAreElsewhere(db, a, ids, i);
    case UpdateItem(_, _, _, _, ids) => NewOptionsAreElsewhere(db, a, ids, i);
    case _ =>
  }

  lemma NewOptionsAreElsewhere(db: Db, a: Action, ids: seq<Id>, i: Id)
    requires Enabled(db, a) && i in db.items && db.items[i].locked
    requires (a.CreateItem? || a.UpdateItem?) && ids == a.ids
    ensures OptionsOf(Apply(db, a), i) == OptionsOf(db, i)
  {
    var l, r := OptionsOf(Apply(db, a), i), OptionsOf(db, i);
    forall c ensures c in l <==> c in r {}
  }

  /** A locked question, with all its options, never changes again. */
  lemma {:induction false} LockedForever(db: Db, run: seq<Action>, i: Id)
    requires Legal(db, run) && i in db.items && db.items[i].locked
    ensures i in After(db, run).items && After(db, run).items[i] == db.items[i]
    ensures OptionsOf(After(db, run), i) == OptionsOf(db, i)
    decreases |run|
  {
    if run == [] {
    } else {
      LockedStep(db, run[0], i);
      LockedForever(Apply(db, run[0]), run[1..], i);
    }
  }

  lemma SubmitLocksAnswered(db: Db, s: Id, sub: Submission, ds: seq<AnswerDraft>, i: Id)
    requires OnePerItem(ds) && i in db.items && !db.items[i].locked && AfterSubmit(db, s, sub, ds).items[i].locked
    ensures Slot(s, i) in AfterSubmit(db, s, sub, ds).answers
  {
    var j := LockedFrom(ds, |ds|, i);
    RowFor(s, sub, ds, |ds|, j);
  }

  /** A question is locked only by an answer to it. */
  lemma OnlyAnswersLock(db: Db, a: Action, i: Id)
    requires Enabled(db, a) && i in db.items && !db.items[i].locked
    requires i in Apply(db, a).items && Apply(db, a).items[i].locked
    ensures exists s :: Slot(s, i) in Apply(db, a).answers
  {
    match a
    case CreateItem(_, _, _, _, _) =>
    case UpdateItem(_, _, _, _, _) =>
    case CreateOrganizer(session, s, actor, key, d) =>
      SubmitLocksAnswered(db, s, OrganizerRow(session, actor, key, d), NormalAnswers(d.answers), i);
    case UpdateOrganizer(_, s, _, _, d) =>
      SubmitLocksAnswered(db, s, OrganizerUpdate(db.submissions[s], d), NormalAnswers(d.answers), i);
    case CreateDirect(session, s, actor, key, d) =>
      SubmitLocksAnswered(db, s, DirectRow(session, actor, key, d.status), NormalAnswers(d.answers), i);
    case UpdateDirect(_, s, _, _, d) =>
      SubmitLocksAnswered(db, s, DirectUpdate(db.submissions[s], d), NormalAnswers(d.answers), i);
    case _ =>
  }

  /** An accepted submission reads back exactly as it was written, and nothing else is answered. */
  lemma SubmissionReadsBack(db: Db, s: Id, sub: Submission, ds: seq<AnswerDraft>, i: Id)
    requires OnePerItem(ds)
    ensures var v := AfterSubmit(db, s, sub, ds);
            && (Slot(s, i) in v.answers <==> exists k :: 0 <= k < |ds| && ds[k].item == i)
            && forall k :: 0 <= k < |ds| && ds[k].item == i ==> v.answers[Slot(s, i)] == StoredAnswer(sub, ds[k])
    ensures forall t :: t != s ==>
              (Slot(t, i) in AfterSubmit(db, s, sub, ds).answers <==> Slot(t, i) in db.answers)
  {
    if Slot(s, i) in Rows(s, sub, ds) { var j := RowFrom(s, sub, ds, |ds|, Slot(s, i)); }
    forall k | 0 <= k < |ds| && ds[k].item == i
      ensures Slot(s, i) in Rows(s, sub, ds) && Rows(s, sub, ds)[Slot(s, i)] == StoredAnswer(sub, ds[k])
    {
      RowFor(s, sub, ds, |ds|, k);
    }
  }

  // ----- Recovery checks -----

  /** The rows that the `feedback_answers` check counts. */
  function MismatchedAnswers(db: Db): set<Slot> {
    set k | k in db.answers && k.submission in db.submissions
            && (var f, a := db.submissions[k.submission], db.answers[k];
                f.session == a.session
                && (a.origin != f.origin || a.status != f.status || a.author != f.author || a.recorder != f.recorder))
  }

  /** The rows that the `feedback_authors` check counts. */
  function StrangeAuthors(db: Db): set<Id> {
    set s | s in db.submissions && db.submissions[s].origin.Direct?
            && !exists p :: && p in db.participants && p.0 == db.submissions[s].session
                            && Some(p.1) == db.submissions[s].author
  }

  lemma FeedbackChecksPass(db: Db, run: seq<Action>)
    requires Initial(db) && Legal(db, run)
    ensures |MismatchedAnswers(After(db, run))| == 0 && |StrangeAuthors(After(db, run))| == 0
  {
    var v := After(db, run);
    RunKeepsInv(db, run);
    forall s | s in v.submissions && v.submissions[s].origin.Direct?
      ensures exists p :: p in v.participants && p.0 == v.submissions[s].session && Some(p.1) == v.submissions[s].author
    {
      assert RowOk(v.participants, v.submissions[s]);
      assert (v.submissions[s].session, v.submissions[s].recorder) in v.participants;
    }
    assert StrangeAuthors(v) == {} && MismatchedAnswers(v) == {};
  }

  /** Feedback that is evidence of an issue is never a draft, and nobody submits directly twice. */
  lemma LinkedStaysSubmitted(db: Db, run: seq<Action>, s: Id)
    requires Initial(db) && Legal(db, run) && s in After(db, run).linked
    ensures s in After(db, run).submissions && After(db, run).submissions[s].status.Submitted?
    ensures OneDirect(After(db, run).submissions)
  {
    RunKeepsInv(db, run);
  }
}
