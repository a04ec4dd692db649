/**
 The feedback operations, statement by statement, over the tables they update in place. Each one
 runs in a transaction that holds the session row; `access` is the answer of the access check.
 */
module FeedbackStore {
  import opened Base
  import opened Text
  import opened Feedback

  datatype Failure =
    | Invalid | Forbidden | Unavailable | StateInvalid | OperationConflict | ItemUnavailable | ItemLocked
    | ItemRevisionConflict | SubmissionUnavailable | SubmissionForbidden | SubmissionRevisionConflict
    | SubmissionLinked | Retryable

  datatype Outcome = Done(id: Id) | Replayed(id: Id) | Refused(failure: Failure)

  predicate KeyOk(key: string) { 0 < |key| <= 128 }

  /** The options of the question carry these labels, in this order. */
  predicate SameOptions(choices: map<Id, Choice>, i: Id, labels: seq<string>) {
    && (forall c :: c in choices && choices[c].item == i ==>
          1 <= choices[c].position <= |labels| && labels[choices[c].position - 1] == choices[c].caption)
    && (forall p: nat :: 1 <= p <= |labels| ==> HasPosition(choices, i, p))
  }

  predicate HasPosition(choices: map<Id, Choice>, i: Id, p: nat) {
    exists c :: c in choices && choices[c].item == i && choices[c].position == p
  }

  predicate IsItemOf(items: map<Id, Item>, session: Id, key: string, i: Id) {
    i in items && items[i].session == session && items[i].key == key
  }

  predicate IsSubmissionOf(submissions: map<Id, Submission>, session: Id, key: string, s: Id) {
    s in submissions && submissions[s].session == session && submissions[s].key == key
  }

  predicate IsDirectOf(submissions: map<Id, Submission>, session: Id, author: Id, s: Id) {
    s in submissions && submissions[s].session == session && submissions[s].author == Some(author)
  }

  /** A participant of a running session submits answers that fit. */
  predicate Ready(db: Db, session: Id, actor: Id, d: SubmissionDraft) {
    && Running(db, session) && (session, actor) in db.participants
    && DirectDraft(d) && Acceptable(db.items, db.choices, session, d.answers)
  }

  lemma OneMoreAnswer(answers: map<Slot, Answer>, s: Id, sub: Submission, ds: seq<AnswerDraft>, k: nat)
    requires k < |ds|
    ensures OthersAnswers(answers, s) + RowsUpTo(s, sub, ds, k + 1)
            == (OthersAnswers(answers, s) + RowsUpTo(s, sub, ds, k))[Slot(s, ds[k].item) := StoredAnswer(sub, ds[k])]
  {
  }

  lemma OneMoreLock(items: map<Id, Item>, ds: seq<AnswerDraft>, k: nat)
    requires k < |ds| && ds[k].item in items
    ensures var before := Locked(items, ItemsUpTo(ds, k));
            Locked(items, ItemsUpTo(ds, k + 1)) == before[ds[k].item := before[ds[k].item].(locked := true)]
  {
  }

  class Store {
    var sessions: map<Id, SessionStatus>
    var participants: set<(Id, Id)>
    var items: map<Id, Item>
    var choices: map<Id, Choice>
    var submissions: map<Id, Submission>
    var answers: map<Slot, Answer>
    var linked: set<Id>

    function View(): Db
      reads this
    {
      Db(sessions, participants, items, choices, submissions, answers, linked)
    }

    constructor ()
      ensures Initial(View())
    {
      sessions, participants, items, choices := map[], {}, map[], map[];
      submissions, answers, linked := map[], map[], {};
    }

    // ----- Questions -----

    method CreateItem(access: Option<Failure>, session: Id, i: Id, key: string, d: ItemDraft, ids: seq<Id>)
      returns (r: Outcome)
      requires i !in items && NewIds(ids, d.options, choices)
      modifies this`items, this`choices
      ensures r.Done? <==> && access.None? && Mutable(old(View()), session) && NormalItem(d).Some? && KeyOk(key)
                           && ItemKeyFree(old(View()), session, key)
      ensures r.Replayed? ==>
        && IsItemOf(old(items), session, key, r.id) && NormalItem(d).Some?
        && old(items)[r.id].kind == d.kind && old(items)[r.id].question == Trimmed(d.question)
        && SameOptions(old(choices), r.id, NormalItem(d).value.options)
      ensures View() == if r.Done?
                        then AfterItem(old(View()), i, NewItem(session, key, NormalItem(d).value), old(choices),
                                       NormalItem(d).value.options, ids)
                        else old(View())
    {
      if access.Some? { return Refused(access.value); }
      if session !in sessions || sessions[session].Cancelled? { return Refused(Unavailable); }
      var n := NormalItem(d);
      if n.None? || !KeyOk(key) { return Refused(Invalid); }
      if j :| j in items && IsItemOf(items, session, key, j) {
        if items[j].kind == n.value.kind && items[j].question == n.value.question
           && SameOptions(choices, j, n.value.options)
        {
          return Replayed(j);
        }
        return Refused(OperationConflict);
      }
      items := items[i := NewItem(session, key, n.value)];
      choices := choices + NewChoices(session, i, n.value.options, ids);
      r := Done(i);
    }

    method UpdateItem(access: Option<Failure>, session: Id, i: Id, expected: int, d: ItemDraft, ids: seq<Id>)
      returns (r: Outcome)
      requires NewIds(ids, d.options, choices)
      modifies this`items, this`choices
      ensures r.Done? <==> && access.None? && Mutable(old(View()), session) && NormalItem(d).Some? && expected > 0
                           && Editable(old(View()), session, i) && old(items)[i].revision == expected
      ensures r == Refused(ItemLocked) && access.None? ==> i in old(items) && old(items)[i].locked
      ensures View() == if r.Done?
                        then AfterItem(old(View()), i, ChangedItem(old(items)[i], NormalItem(d).value),
                                       WithoutItem(old(choices), i), NormalItem(d).value.options, ids)
                        else old(View())
    {
      if access.Some? { return Refused(access.value); }
      if session !in sessions || sessions[session].Cancelled? { return Refused(Unavailable); }
      var n := NormalItem(d);
      if n.None? || expected <= 0 { return Refused(Invalid); }
      if i !in items || items[i].session != session { return Refused(ItemUnavailable); }
      if items[i].locked { return Refused(ItemLocked); }
      if items[i].revision != expected { return Refused(ItemRevisionConflict); }
      items := items[i := ChangedItem(items[i], n.value)];
      choices := WithoutItem(choices, i);
      choices := choices + NewChoices(items[i].session, i, n.value.options, ids);
      r := Done(i);
    }

    method DeleteItem(access: Option<Failure>, session: Id, i: Id) returns (r: Outcome)
      modifies this`items, this`choices
      ensures r.Done? <==> access.None? && Mutable(old(View()), session) && Editable(old(View()), session, i)
      ensures r == Refused(ItemLocked) && access.None? ==> i in old(items) && old(items)[i].locked
      ensures View() == if r.Done? then AfterDelete(old(View()), i) else old(View())
    {
      if access.Some? { return Refused(access.value); }
      if session !in sessions || sessions[session].Cancelled? { return Refused(Unavailable); }
      if i !in items || items[i].session != session { return Refused(ItemUnavailable); }
      if items[i].locked { return Refused(ItemLocked); }
      choices := WithoutItem(choices, i);
      items := items - {i};
      r := Done(i);
    }

    // ----- Answers -----

    /** Accepts exactly the answers that fit, one for each question; returns them trimmed. */
    method ValidatedAnswers(session: Id, ds: seq<AnswerDraft>) returns (r: Option<seq<AnswerDraft>>)
      ensures r.Some? <==> Acceptable(items, choices, session, ds)
      ensures r.Some? ==> r.value == NormalAnswers(ds)
    {
      if ds == [] || !OnePerItem(ds) { return None; }
      if exists k :: 0 <= k < |ds| && (ds[k].item !in items || items[ds[k].item].session != session) { return None; }
      var result: seq<AnswerDraft> := [];
      for k := 0 to |ds|
        invariant forall j :: 0 <= j < k ==> FitsItem(items, choices, session, ds[j])
        invariant |result| == k && forall j :: 0 <= j < k ==> result[j] == NormalAnswer(ds[j])
      {
        var d := ds[k];
        match items[d.item].kind
        case ShortText =>
          if d.choice.Some? || d.number.Some? { return None; }
          if d.text.None? || Required(d.text.value, 4000).None? { return None; }
          result := result + [AnswerDraft(d.item, Required(d.text.value, 4000), None, None)];
        case SingleChoice =>
          if d.text.Some? || d.number.Some? || d.choice.None? || d.choice.value !in choices { return None; }
          var option := choices[d.choice.value];
          if option.item != d.item || option.session != session { return None; }
          result := result + [AnswerDraft(d.item, None, d.choice, None)];
        case Number =>
          if d.text.Some? || d.choice.Some? || d.number.None? || !d.number.value.Finite? { return None; }
          result := result + [AnswerDraft(d.item, None, None, d.number)];
      }
      r := Some(result);
    }

    /** Inserts one answer; the trigger on the table locks the question. */
    method InsertAnswer(s: Id, d: AnswerDraft)
      requires s in submissions && d.item in items
      modifies this`answers, this`items
      ensures answers == old(answers)[Slot(s, d.item) := StoredAnswer(submissions[s], d)]
      ensures items == old(items)[d.item := old(items)[d.item].(locked := true)]
    {
      answers := answers[Slot(s, d.item) := StoredAnswer(submissions[s], d)];
      items := items[d.item := items[d.item].(locked := true)];
    }

    method ReplaceAnswers(s: Id, ds: seq<AnswerDraft>)
      requires s in submissions && OnePerItem(ds) && forall k :: 0 <= k < |ds| ==> ds[k].item in items
      modifies this`answers, this`items
      ensures answers == OthersAnswers(old(answers), s) + Rows(s, submissions[s], ds)
      ensures items == Locked(old(items), ItemsOf(ds))
    {
      ghost var sub := submissions[s];
      answers := OthersAnswers(answers, s);
      for k := 0 to |ds|
        invariant answers == OthersAnswers(old(answers), s) + RowsUpTo(s, sub, ds, k)
        invariant items == Locked(old(items), ItemsUpTo(ds, k))
      {
        OneMoreAnswer(old(answers), s, sub, ds, k);
        OneMoreLock(old(items), ds, k);
        InsertAnswer(s, ds[k]);
      }
    }

    /** Writes the row and replaces its answers. */
    method Write(s: Id, sub: Submission, ds: seq<AnswerDraft>)
      requires OnePerItem(ds) && forall k :: 0 <= k < |ds| ==> ds[k].item in items
      modifies this`submissions, this`answers, this`items
      ensures View() == AfterSubmit(old(View()), s, sub, ds)
    {
      submissions := submissions[s := sub];
      ReplaceAnswers(s, ds);
    }

    // ----- Submissions -----

    method CreateOrganizerSubmission(
        access: Option<Failure>, session: Id, s: Id, actor: Id, key: string, d: SubmissionDraft)
      returns (r: Outcome)
      requires s !in submissions
      modifies this`submissions, this`answers, this`items
      ensures r.Done? <==> && access.None? && Mutable(old(View()), session) && OrganizerDraft(d)
                           && Acceptable(old(items), choices, session, d.answers) && KeyOk(key)
                           && KeyFree(old(View()), session, key)
      ensures r.Replayed? ==> IsSubmissionOf(old(submissions), session, key, r.id)
                              && old(submissions)[r.id].recorder == actor
      ensures r.Done? ==> OnePerItem(NormalAnswers(d.answers))
      ensures View() == if r.Done?
                        then AfterSubmit(old(View()), s, OrganizerRow(session, actor, key, d), NormalAnswers(d.answers))
                        else old(View())
    {
      if access.Some? { return Refused(access.value); }
      if session !in sessions || sessions[session].Cancelled? { return Refused(Unavailable); }
      if !OrganizerDraft(d) { return Refused(Invalid); }
      var ds := ValidatedAnswers(session, d.answers);
      if ds.None? || !KeyOk(key) { return Refused(Invalid); }
      if t :| t in submissions && IsSubmissionOf(submissions, session, key, t) {
        return if submissions[t].recorder != actor then Refused(OperationConflict) else Replayed(t);
      }
      NormalOnePerItem(d.answers);
      Write(s, OrganizerRow(session, actor, key, d), ds.value);
      r := Done(s);
    }

    method UpdateOrganizerSubmission(
        access: Option<Failure>, session: Id, s: Id, actor: Id, expected: int, d: SubmissionDraft)
      returns (r: Outcome)
      modifies this`submissions, this`answers, this`items
      ensures r.Done? <==> && access.None? && Mutable(old(View()), session) && OrganizerDraft(d)
                           && Acceptable(old(items), choices, session, d.answers) && expected > 0
                           && s in old(submissions) && old(submissions)[s].session == session
                           && !old(submissions)[s].origin.Direct? && old(submissions)[s].recorder == actor
                           && old(submissions)[s].revision == expected
      ensures r.Done? ==> OnePerItem(NormalAnswers(d.answers))
      ensures View() == if r.Done?
                        then AfterSubmit(old(View()), s, OrganizerUpdate(old(submissions)[s], d),
                                         NormalAnswers(d.answers))
                        else old(View())
    {
      if access.Some? { return Refused(access.value); }
      if session !in sessions || sessions[session].Cancelled? { return Refused(Unavailable); }
      if !OrganizerDraft(d) { return Refused(Invalid); }
      var ds := ValidatedAnswers(session, d.answers);
      if ds.None? || expected <= 0 { return Refused(Invalid); }
      if s !in submissions || submissions[s].session != session { return Refused(SubmissionUnavailable); }
      if submissions[s].origin.Direct? || submissions[s].recorder != actor { return Refused(SubmissionForbidden); }
      if submissions[s].revision != expected { return Refused(SubmissionRevisionConflict); }
      NormalOnePerItem(d.answers);
      Write(s, OrganizerUpdate(submissions[s], d), ds.value);
      r := Done(s);
    }

    /** The participant's own submission: created once, then changed at its current revision. */
    method SaveDirectSubmission(
        access: Option<Failure>, session: Id, s: Id, actor: Id, key: Option<string>, expected: Option<int>,
        d: SubmissionDraft)
      returns (r: Outcome)
      requires s !in submissions && s !in linked && OneDirect(submissions)
      modifies this`submissions, this`answers, this`items
      ensures r.Done? ==> Ready(old(View()), session, actor, d) && OnePerItem(NormalAnswers(d.answers))
      ensures access.None? && Ready(old(View()), session, actor, d) ==>
        && (r == Done(s) <==>
              expected.None? && key.Some? && KeyOk(key.value) && NoDirect(old(View()), session, actor)
              && KeyFree(old(View()), session, key.value))
        && (forall t :: t != s ==>
              (r == Done(t) <==>
                 IsDirectOf(old(submissions), session, actor, t) && expected == Some(old(submissions)[t].revision)
                 && expected.value > 0 && (d.status.Draft? ==> t !in linked)))
      ensures !r.Done? ==> View() == old(View())
      ensures r == Done(s) ==>
        && key.Some?
        && View() == AfterSubmit(old(View()), s, DirectRow(session, actor, key.value, d.status),
                                 NormalAnswers(d.answers))
      ensures r.Done? && r.id != s ==>
        && r.id in old(submissions)
        && View() == AfterSubmit(old(View()), r.id, DirectUpdate(old(submissions)[r.id], d), NormalAnswers(d.answers))
      ensures r.Replayed? ==>
        && expected.None? && key.Some? && IsDirectOf(old(submissions), session, actor, r.id)
        && old(submissions)[r.id].key == key.value
      ensures r == Refused(SubmissionLinked) && access.None? ==>
        d.status.Draft? && exists t :: t in linked && IsDirectOf(old(submissions), session, actor, t)
    {
      if (session, actor) !in participants || session !in sessions { return Refused(Unavailable); }
      if access.Some? { return Refused(access.value); }
      if !sessions[session].Started? { return Refused(StateInvalid); }
      if !DirectDraft(d) { return Refused(Invalid); }
      var ds := ValidatedAnswers(session, d.answers);
      if ds.None? { return Refused(Invalid); }
      NormalOnePerItem(d.answers);
      if t :| t in submissions && IsDirectOf(submissions, session, actor, t) {
        if expected.None? {
          return if key == Some(submissions[t].key) then Replayed(t) else Refused(OperationConflict);
        }
        if expected.value <= 0 || submissions[t].revision != expected.value {
          return Refused(SubmissionRevisionConflict);
        }
        if d.status.Draft? && t in linked { return Refused(SubmissionLinked); }
        Write(t, DirectUpdate(submissions[t], d), ds.value);
        return Done(t);
      }
      if expected.Some? || key.None? || !KeyOk(key.value) { return Refused(Invalid); }
      if exists t :: t in submissions && IsSubmissionOf(submissions, session, key.value, t) {
        return Refused(Retryable);
      }
      Write(s, DirectRow(session, actor, key.value, d.status), ds.value);
      r := Done(s);
    }
  }
}
