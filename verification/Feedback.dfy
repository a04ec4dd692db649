/**
 Feedback on playtest sessions: questions, their options, submissions and answers. Every
 operation holds the session row, so a run is a sequence of operations.
 */
module Feedback {
  import opened Base
  import opened Text

  datatype SessionStatus = Scheduled | Started | Cancelled

  datatype Kind = ShortText | SingleChoice | Number

  datatype Item = Item(session: Id, kind: Kind, question: string, revision: nat, locked: bool, key: string)

  /** An option of a single-choice question. */
  datatype Choice = Choice(session: Id, item: Id, caption: string, position: nat)

  datatype Origin = Direct | OralDiscussion | PaperRecord | OrganizerObservation | TemporaryAlias

  datatype Status = Draft | Submitted

  datatype Submission = Submission(
    session: Id, origin: Origin, alias: Option<string>, author: Option<Id>, recorder: Id,
    status: Status, revision: nat, key: string)

  datatype Slot = Slot(submission: Id, item: Id)

  datatype Answer = Answer(
    session: Id, kind: Kind, text: Option<string>, choice: Option<Id>, number: Option<real>,
    origin: Origin, author: Option<Id>, recorder: Id, status: Status)

  /** What a caller passes as a number: `Other` is infinite, not a number, or no number at all. */
  datatype Value = Finite(value: real) | Other

  datatype AnswerDraft = AnswerDraft(item: Id, text: Option<string>, choice: Option<Id>, number: Option<Value>)

  datatype ItemDraft = ItemDraft(kind: Kind, question: string, options: seq<string>)

  datatype SubmissionDraft = SubmissionDraft(
    origin: Origin, alias: Option<string>, status: Status, answers: seq<AnswerDraft>)

  /** `linked` are the submissions that are evidence of an issue. */
  datatype Db = Db(
    sessions: map<Id, SessionStatus>,
    participants: set<(Id, Id)>,
    items: map<Id, Item>,
    choices: map<Id, Choice>,
    submissions: map<Id, Submission>,
    answers: map<Slot, Answer>,
    linked: set<Id>)

  // ----- Drafts -----

  predicate AllRequired(options: seq<string>, limit: nat) {
    forall k :: 0 <= k < |options| ==> Required(options[k], limit).Some?
  }

  predicate Different(labels: seq<string>) { forall i, j :: 0 <= i < j < |labels| ==> labels[i] != labels[j] }

  function AllTrimmed(options: seq<string>): seq<string> {
    seq(|options|, k requires 0 <= k < |options| => Trimmed(options[k]))
  }

  function NormalItem(d: ItemDraft): Option<ItemDraft> {
    if Required(d.question, 4000).None? || !AllRequired(d.options, 1000) then None
    else if (if d.kind.SingleChoice? then |d.options| >= 2 && Different(AllTrimmed(d.options)) else d.options == [])
    then Some(ItemDraft(d.kind, Trimmed(d.question), AllTrimmed(d.options)))
    else None
  }

  predicate OrganizerDraft(d: SubmissionDraft) {
    && !d.origin.Direct? && d.status.Submitted? && Fits(d.alias, 160)
    && (d.origin.TemporaryAlias? <==> Normal(d.alias).Some?)
  }

  /** The answer fits its question: the right field is set, and no other. */
  predicate FitsItem(items: map<Id, Item>, choices: map<Id, Choice>, session: Id, d: AnswerDraft) {
    && d.item in items && items[d.item].session == session
    && match items[d.item].kind
       case ShortText => d.choice.None? && d.number.None? && d.text.Some? && Required(d.text.value, 4000).Some?
       case SingleChoice =>
         && d.text.None? && d.number.None? && d.choice.Some? && d.choice.value in choices
         && choices[d.choice.value].session == session && choices[d.choice.value].item == d.item
       case Number => d.text.None? && d.choice.None? && d.number.Some? && d.number.value.Finite?
  }

  predicate OnePerItem(ds: seq<AnswerDraft>) { forall i, j :: 0 <= i < j < |ds| ==> ds[i].item != ds[j].item }

  predicate Acceptable(items: map<Id, Item>, choices: map<Id, Choice>, session: Id, ds: seq<AnswerDraft>) {
    ds != [] && OnePerItem(ds) && forall k :: 0 <= k < |ds| ==> FitsItem(items, choices, session, ds[k])
  }

  function NormalAnswer(d: AnswerDraft): AnswerDraft {
    d.(text := if d.text.Some? then Some(Trimmed(d.text.value)) else None)
  }

  function NormalAnswers(ds: seq<AnswerDraft>): seq<AnswerDraft> {
    seq(|ds|, k requires 0 <= k < |ds| => NormalAnswer(ds[k]))
  }

  // ----- Stored rows -----

  function StoredAnswer(sub: Submission, d: AnswerDraft): Answer {
    Answer(sub.session, if d.text.Some? then ShortText else if d.choice.Some? then SingleChoice else Number,
           d.text, d.choice, if d.number.Some? && d.number.value.Finite? then Some(d.number.value.value) else None,
           sub.origin, sub.author, sub.recorder, sub.status)
  }

  /** The questions of the first `n` answers. */
  function ItemsUpTo(ds: seq<AnswerDraft>, n: nat): (items: set<Id>)
    requires n <= |ds|
    ensures forall k :: 0 <= k < n ==> ds[k].item in items
  {
    if n == 0 then {} else ItemsUpTo(ds, n - 1) + {ds[n - 1].item}
  }

  function ItemsOf(ds: seq<AnswerDraft>): set<Id> { ItemsUpTo(ds, |ds|) }

  /** The rows written for the first `n` answers of a submission. */
  function RowsUpTo(s: Id, sub: Submission, ds: seq<AnswerDraft>, n: nat): (rows: map<Slot, Answer>)
    requires n <= |ds|
    ensures forall x :: x in rows ==> x.submission == s
  {
    if n == 0 then map[] else RowsUpTo(s, sub, ds, n - 1)[Slot(s, ds[n - 1].item) := StoredAnswer(sub, ds[n - 1])]
  }

  function Rows(s: Id, sub: Submission, ds: seq<AnswerDraft>): map<Slot, Answer> { RowsUpTo(s, sub, ds, |ds|) }

  function OthersAnswers(answers: map<Slot, Answer>, s: Id): map<Slot, Answer> {
    map k | k in answers && k.submission != s :: answers[k]
  }

  /** Inserting an answer locks its question. */
  function Locked(items: map<Id, Item>, answered: set<Id>): map<Id, Item> {
    map i | i in items :: if i in answered then items[i].(locked := true) else items[i]
  }

  function WithoutItem(choices: map<Id, Choice>, i: Id): map<Id, Choice> {
    map c | c in choices && choices[c].item != i :: choices[c]
  }

  predicate NewIds(ids: seq<Id>, options: seq<string>, choices: map<Id, Choice>) {
    && |ids| == |options| && (forall k :: 0 <= k < |ids| ==> ids[k] !in choices)
    && forall j, k :: 0 <= j < k < |ids| ==> ids[j] != ids[k]
  }

  function NewChoices(session: Id, i: Id, options: seq<string>, ids: seq<Id>): map<Id, Choice>
    requires |ids| == |options| && forall j, k :: 0 <= j < k < |ids| ==> ids[j] != ids[k]
  {
    map k | 0 <= k < |ids| :: ids[k] := Choice(session, i, options[k], k + 1)
  }

  // ----- Operations -----

  datatype Action =
    | CreateItem(session: Id, i: Id, key: string, item: ItemDraft, ids: seq<Id>)
    | UpdateItem(session: Id, i: Id, expected: nat, item: ItemDraft, ids: seq<Id>)
    | DeleteItem(session: Id, i: Id)
    | CreateOrganizer(session: Id, s: Id, actor: Id, key: string, draft: SubmissionDraft)
    | UpdateOrganizer(session: Id, s: Id, actor: Id, expected: nat, draft: SubmissionDraft)
    | CreateDirect(session: Id, s: Id, actor: Id, key: string, draft: SubmissionDraft)
    | UpdateDirect(session: Id, s: Id, actor: Id, expected: nat, draft: SubmissionDraft)
    | Link(s: Id)
    | Unlink(s: Id)
    | SetSession(session: Id, status: SessionStatus)
    | Invite(session: Id, account: Id)

  predicate Mutable(db: Db, session: Id) { session in db.sessions && !db.sessions[session].Cancelled? }

  predicate Running(db: Db, session: Id) { session in db.sessions && db.sessions[session].Started? }

  predicate ItemKeyFree(db: Db, session: Id, key: string) {
    forall i :: i in db.items && db.items[i].session == session ==> db.items[i].key != key
  }

  predicate KeyFree(db: Db, session: Id, key: string) {
    forall s :: s in db.submissions && db.submissions[s].session == session ==> db.submissions[s].key != key
  }

  predicate NoDirect(db: Db, session: Id, author: Id) {
    forall s :: s in db.submissions && db.submissions[s].session == session ==> db.submissions[s].author != Some(author)
  }

  /** The unique constraint on direct authors. */
  ghost predicate OneDirect(submissions: map<Id, Submission>) {
    forall s, t :: s in submissions && t in submissions && s != t
                   && submissions[s].session == submissions[t].session ==>
      submissions[s].author.None? || submissions[s].author != submissions[t].author
  }

  predicate Editable(db: Db, session: Id, i: Id) {
    i in db.items && db.items[i].session == session && !db.items[i].locked
  }

  predicate DirectDraft(d: SubmissionDraft) { d.origin.Direct? && d.alias.None? }

  predicate Enabled(db: Db, a: Action) {
    match a
    case CreateItem(session, i, key, d, ids) =>
      && Mutable(db, session) && i !in db.items && ItemKeyFree(db, session, key)
      && NormalItem(d).Some? && NewIds(ids, d.options, db.choices)
    case UpdateItem(session, i, expected, d, ids) =>
      && Mutable(db, session) && Editable(db, session, i) && db.items[i].revision == expected
      && NormalItem(d).Some? && NewIds(ids, d.options, db.choices)
    case DeleteItem(session, i) => Mutable(db, session) && Editable(db, session, i)
    case CreateOrganizer(session, s, _, key, d) =>
      && Mutable(db, session) && s !in db.submissions && KeyFree(db, session, key)
      && OrganizerDraft(d) && Acceptable(db.items, db.choices, session, d.answers)
    case UpdateOrganizer(session, s, actor, expected, d) =>
      && Mutable(db, session) && s in db.submissions && db.submissions[s].session == session
      && !db.submissions[s].origin.Direct? && db.submissions[s].recorder == actor
      && db.submissions[s].revision == expected
      && OrganizerDraft(d) && Acceptable(db.items, db.choices, session, d.answers)
    case CreateDirect(session, s, actor, key, d) =>
      && Running(db, session) && (session, actor) in db.participants && s !in db.submissions
      && KeyFree(db, session, key) && NoDirect(db, session, actor)
      && DirectDraft(d) && Acceptable(db.items, db.choices, session, d.answers)
    case UpdateDirect(session, s, actor, expected, d) =>
      && Running(db, session) && s in db.submissions && db.submissions[s].session == session
      && db.submissions[s].author == Some(actor) && db.submissions[s].revision == expected
      && (d.status.Draft? ==> s !in db.linked)
      && DirectDraft(d) && Acceptable(db.items, db.choices, session, d.answers)
    case Link(s) => s in db.submissions && db.submissions[s].status.Submitted?
    case _ => true
  }

  function AfterItem(db: Db, i: Id, item: Item, kept: map<Id, Choice>, options: seq<string>, ids: seq<Id>): Db
    requires |ids| == |options| && forall j, k :: 0 <= j < k < |ids| ==> ids[j] != ids[k]
  {
    db.(items := db.items[i := item], choices := kept + NewChoices(item.session, i, options, ids))
  }

  function NewItem(session: Id, key: string, n: ItemDraft): Item {
    Item(session, n.kind, n.question, 1, false, key)
  }

  function ChangedItem(item: Item, n: ItemDraft): Item {
    item.(kind := n.kind, question := n.question, revision := item.revision + 1)
  }

  function AfterDelete(db: Db, i: Id): Db {
    db.(items := db.items - {i}, choices := WithoutItem(db.choices, i))
  }

  /** A submission is written, its answers are replaced, and their questions are locked. */
  function AfterSubmit(db: Db, s: Id, sub: Submission, ds: seq<AnswerDraft>): Db
    requires OnePerItem(ds)
  {
    db.(submissions := db.submissions[s := sub],
        answers := OthersAnswers(db.answers, s) + Rows(s, sub, ds),
        items := Locked(db.items, ItemsOf(ds)))
  }

  function OrganizerRow(session: Id, actor: Id, key: string, d: SubmissionDraft): Submission
    requires OrganizerDraft(d)
  {
    Submission(session, d.origin, Normal(d.alias), None, actor, Submitted, 1, key)
  }

  function DirectRow(session: Id, actor: Id, key: string, status: Status): Submission {
    Submission(session, Direct, None, Some(actor), actor, status, 1, key)
  }

  function OrganizerUpdate(sub: Submission, d: SubmissionDraft): Submission
    requires OrganizerDraft(d)
  {
    sub.(origin := d.origin, alias := Normal(d.alias), revision := sub.revision + 1)
  }

  function DirectUpdate(sub: Submission, d: SubmissionDraft): Submission {
    sub.(status := d.status, revision := sub.revision + 1)
  }

  lemma NormalOnePerItem(ds: seq<AnswerDraft>)
    requires OnePerItem(ds)
    ensures OnePerItem(NormalAnswers(ds))
  {
  }

  function Apply(db: Db, a: Action): Db
    requires Enabled(db, a)
  {
    match a
    case CreateItem(session, i, key, d, ids) =>
      var n := NormalItem(d).value;
      AfterItem(db, i, NewItem(session, key, n), db.choices, n.options, ids)
    case UpdateItem(session, i, _, d, ids) =>
      var n := NormalItem(d).value;
      AfterItem(db, i, ChangedItem(db.items[i], n), WithoutItem(db.choices, i), n.options, ids)
    case DeleteItem(_, i) => AfterDelete(db, i)
    case CreateOrganizer(session, s, actor, key, d) =>
      AfterSubmit(db, s, OrganizerRow(session, actor, key, d), NormalAnswers(d.answers))
    case UpdateOrganizer(session, s, _, _, d) =>
      AfterSubmit(db, s, OrganizerUpdate(db.submissions[s], d), NormalAnswers(d.answers))
    case CreateDirect(session, s, actor, key, d) =>
      AfterSubmit(db, s, DirectRow(session, actor, key, d.status), NormalAnswers(d.answers))
    case UpdateDirect(session, s, _, _, d) =>
      AfterSubmit(db, s, DirectUpdate(db.submissions[s], d), NormalAnswers(d.answers))
    case Link(s) => db.(linked := db.linked + {s})
    case Unlink(s) => db.(linked := db.linked - {s})
    case SetSession(session, status) => db.(sessions := db.sessions[session := status])
    case Invite(session, account) => db.(participants := db.participants + {(session, account)})
  }

  ghost predicate Legal(db: Db, run: seq<Action>)
    decreases |run|
  {
    run == [] || (Enabled(db, run[0]) && Legal(Apply(db, run[0]), run[1..]))
  }

  ghost function After(db: Db, run: seq<Action>): Db
    requires Legal(db, run)
    decreases |run|
  {
    if run == [] then db else After(Apply(db, run[0]), run[1..])
  }

  ghost predicate Initial(db: Db) {
    db.items == map[] && db.choices == map[] && db.submissions == map[] && db.answers == map[] && db.linked == {}
  }
}
