/** The records of the operations domain (ops_model.go) and its error kinds. */
module OpsModel {
  import opened Text

  datatype Option<+T> = None | Some(value: T)

  /** The sentinel errors of ops_errors.go, the error of an ended context, and the runtime panic
      of a slice expression with its bounds out of range. */
  datatype OpsError = NotFound | Conflict | Invalid | TransitionRefused | PolicyRefused | Cancelled | SlicePanic

  datatype Reply<+T> = Ok(value: T) | Err(error: OpsError)

  /** A status or priority is any text; the named ones have their own constructors, so that each
      text is one value. */
  type OtherStatusText = t: string | t !in {"queued", "active", "paused", "closed"}

  type OtherPriorityText = t: string | t !in {"low", "normal", "high", "critical"}

  datatype OpsStatus = Queued | Active | Paused | Closed | OtherStatus(text: OtherStatusText)

  datatype OpsPriority = Low | Normal | High | Critical | OtherPriority(text: OtherPriorityText)
  {
    function Weight(): (w: nat)
    {
      match this
      case Critical => 4
      case High => 3
      case Normal => 2
      case _ => 1
    }
  }

  /** The text a status stands for, and the status a text is. */
  function StatusText(s: OpsStatus): string {
    match s
    case Queued => "queued"
    case Active => "active"
    case Paused => "paused"
    case Closed => "closed"
    case OtherStatus(t) => t
  }

  function StatusOf(t: string): OpsStatus {
    if t == "queued" then Queued else if t == "active" then Active else if t == "paused" then Paused
    else if t == "closed" then Closed else OtherStatus(t)
  }

  /** Statuses are texts, one for one. */
  lemma StatusIsText(s: OpsStatus, t: string)
    ensures StatusOf(StatusText(s)) == s && StatusText(StatusOf(t)) == t
    ensures StatusText(Queued) == "queued" && StatusText(Active) == "active"
    ensures StatusText(Paused) == "paused" && StatusText(Closed) == "closed"
  {
  }

  /** A nil label map is the empty map. */
  datatype OpsRecord = OpsRecord(
    id: string, subject: string, owner: string, status: OpsStatus, priority: OpsPriority,
    revision: int, labels: map<string, string>, createdAt: string, updatedAt: string)
  {
    predicate Terminal() {
      status == Closed
    }

    function LabelValue(key: string): string {
      if key in labels then labels[key] else ""
    }
  }

  /** Critical before high before normal; low ranks with whatever is not a priority. */
  lemma WeightsRank(text: OtherPriorityText)
    ensures Critical.Weight() > High.Weight() > Normal.Weight() > Low.Weight() == OtherPriority(text).Weight()
  {
  }

  /** Everything but status, revision and update stamp: what no operation on a stored record
      may touch. */
  predicate SameIdentity(a: OpsRecord, b: OpsRecord) {
    && a.id == b.id && a.subject == b.subject && a.owner == b.owner && a.priority == b.priority
    && a.labels == b.labels && a.createdAt == b.createdAt
  }

  datatype EventType = Created | StatusChanged | NoteAdded

  /** The counter stands for the event's id, which prints it (Pad6 in module Decimal). */
  datatype OpsEvent = OpsEvent(number: nat, recordID: string, kind: EventType, actor: string)

  datatype OpsQuery = OpsQuery(
    subject: string, status: OpsStatus, priority: OpsPriority, owner: string, page: int, pageSize: int)

  function NormalizeOpsRecord(record: OpsRecord): OpsRecord {
    record.(
      id := ToLower(TrimSpace(record.id)),
      subject := JoinBlank(Fields(record.subject)),
      owner := TrimSpace(record.owner),
      status := if record.status == OtherStatus("") then Queued else record.status,
      revision := if record.revision < 1 then 1 else record.revision)
  }

  ghost predicate JoinedWords(s: string, ws: seq<string>) {
    (forall w :: w in ws ==> Word(w)) && s == JoinBlank(ws)
  }

  /** The normal form: what every record in the store looks like when it arrives there. */
  ghost predicate InNormalForm(r: OpsRecord) {
    && Trimmed(r.id) && (forall i :: 0 <= i < |r.id| ==> LowerCase(r.id[i]))
    && (exists ws: seq<string> :: JoinedWords(r.subject, ws))
    && Trimmed(r.owner)
    && r.status != OtherStatus("")
    && r.revision >= 1
  }

  /** Normalising reaches the normal form, and leaves exactly the records in it alone; hence it
      is idempotent. */
  lemma NormalForm(r: OpsRecord)
    ensures InNormalForm(NormalizeOpsRecord(r))
    ensures InNormalForm(r) <==> NormalizeOpsRecord(r) == r
    ensures NormalizeOpsRecord(NormalizeOpsRecord(r)) == NormalizeOpsRecord(r)
  {
    ReachesNormalForm(r);
    if InNormalForm(r) { NormalFormIsFixed(r); }
    NormalFormIsFixed(NormalizeOpsRecord(r));
  }

  /** Trimmed of its white space. */
  ghost predicate TrimmedTo(s: string, r: string) {
    Trimmed(r) && exists a, b :: OnlySpaceAround(s, a, r, b)
  }

  ghost predicate TrimmedAndLowered(s: string, r: string) {
    exists t :: TrimmedTo(s, t) && Lowered(t, r)
  }

  ghost predicate Respaced(s: string, r: string) {
    exists ws :: Splits(s, ws) && Spaced(r, ws)
  }

  /** r is record tidied up: an empty status is queued and a revision below 1 is 1, any other stays;
      the id is trimmed and in small letters, the owner trimmed, the words of the subject stand with
      one blank between neighbours; priority and labels stay. */
  ghost predicate TidiedUp(record: OpsRecord, r: OpsRecord) {
    && r.status == (if StatusText(record.status) == "" then Queued else record.status)
    && r.revision == (if record.revision >= 1 then record.revision else 1)
    && r.priority == record.priority && r.labels == record.labels
    && TrimmedAndLowered(record.id, r.id) && TrimmedTo(record.owner, r.owner)
    && Respaced(record.subject, r.subject)
  }

  /** Which normal form normalising reaches. */
  lemma NormalizedFields(record: OpsRecord)
    ensures var r := NormalizeOpsRecord(record);
            TidiedUp(record, r) && r.createdAt == record.createdAt && r.updatedAt == record.updatedAt
  {
    hide TrimmedTo, TrimmedAndLowered, Respaced, TrimSpace, ToLower, JoinBlank, Fields;
    Trims(record.owner);
    TrimsAndLowers(record.id);
    Respaces(record.subject);
  }

  lemma Trims(s: string)
    ensures TrimmedTo(s, TrimSpace(s))
  {
    hide OnlySpaceAround, TrimSpace;
    TrimSound(s);
  }

  lemma TrimsAndLowers(s: string)
    ensures TrimmedAndLowered(s, ToLower(TrimSpace(s)))
  {
    hide TrimmedTo, TrimSpace, ToLower, Lowered;
    Trims(s);
    LowerSound(TrimSpace(s));
  }

  lemma Respaces(s: string)
    ensures Respaced(s, JoinBlank(Fields(s)))
  {
    hide Splits, Spaced, Fields, JoinBlank;
    FieldsExactly(s, Fields(s));
    JoinIsSpaced(Fields(s));
  }

  lemma ReachesNormalForm(r: OpsRecord)
    ensures InNormalForm(NormalizeOpsRecord(r))
  {
    TrimSound(r.id);
    LowerSound(TrimSpace(r.id));
    TrimSound(r.owner);
    FieldsAreWords(r.subject);
    assert JoinedWords(NormalizeOpsRecord(r).subject, Fields(r.subject));
  }

  lemma StampsStayNormal(record: OpsRecord, stamp: string)
    ensures var made := NormalizeOpsRecord(record).(createdAt := stamp, updatedAt := stamp);
            NormalizeOpsRecord(made) == made && made.revision >= 1
  {
    NormalForm(record);
  }

  lemma NormalFormIsFixed(r: OpsRecord)
    requires InNormalForm(r)
    ensures NormalizeOpsRecord(r) == r
  {
    TrimSound(r.id);
    LowerSound(r.id);
    TrimSound(r.owner);
    var ws: seq<string> :| JoinedWords(r.subject, ws);
    FieldsOfJoin(ws);
  }
}
