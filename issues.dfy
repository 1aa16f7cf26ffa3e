/**
 * Issues: their wire form, the local form with its change tracking, and the update diff.
 *
 * A local issue keeps the values it was loaded with (all absent for a new issue) beside the
 * values the caller has set since. The update sent to the server lists, in a fixed field order,
 * one descriptor for each field whose current value differs from its loaded value.
 */
module Issues {
  import opened Wrappers
  import opened Text
  import Query

  type Year = y: int | 1 <= y <= 9999 witness 1
  type Month = m: int | 1 <= m <= 12 witness 1
  type Day = d: int | 1 <= d <= 31 witness 1

  /** A calendar date; the time of day plays no part in the diff. */
  datatype Date = Date(year: Year, month: Month, day: Day)

  const MonthNames: seq<string> :=
    ["Jan", "Feb", "Mar", "Apr", "May", "Jun", "Jul", "Aug", "Sep", "Oct", "Nov", "Dec"]

  function MonthName(m: Month): (s: string)
    ensures |s| == 3 && '/' !in s
  {
    MonthNames[m - 1]
  }

  lemma MonthNameInjective(a: Month, b: Month)
    requires MonthName(a) == MonthName(b)
    ensures a == b
  {
  }

  /** A number below 100 as exactly two digits. */
  function TwoDigits(n: nat): (s: string)
    requires n < 100
    ensures |s| == 2
  {
    [Digit(n / 10), Digit(n % 10)]
  }

  /** The display form of a date in an update: day, month abbreviation, two-digit year. */
  function FormatDate(d: Date): string
  {
    NatText(d.day) + "/" + MonthName(d.month) + "/" + TwoDigits(d.year % 100)
  }

  /** The one date whose rendering the library pins down. */
  lemma FormatDateExample()
    ensures FormatDate(Date(2011, 10, 10)) == "10/Oct/11"
  {
    assert NatText(10) == NatText(1) + [Digit(0)];
    assert Digit(1) == '1' && Digit(0) == '0';
    assert TwoDigits(11) == "11";
  }

  /** `a/b` split at its first slash, when `a` has none. */
  lemma SplitAtSlash(a: string, b: string, a': string, b': string)
    requires '/' !in a && '/' !in a'
    requires a + "/" + b == a' + "/" + b'
    ensures a == a' && b == b'
  {
    Query.IndexOfAfter(a, '/', b);
    Query.IndexOfAfter(a', '/', b');
    var s := a + "/" + b;
    assert s[..|a|] == a && s[|a| + 1..] == b;
    assert s[..|a'|] == a' && s[|a'| + 1..] == b';
  }

  /** Within one century, different dates render differently. */
  lemma FormatDateInjective(d1: Date, d2: Date)
    requires d1.year / 100 == d2.year / 100
    requires FormatDate(d1) == FormatDate(d2)
    ensures d1 == d2
  {
    var y1, y2 := TwoDigits(d1.year % 100), TwoDigits(d2.year % 100);
    assert FormatDate(d1) == NatText(d1.day) + "/" + (MonthName(d1.month) + "/" + y1);
    assert FormatDate(d2) == NatText(d2.day) + "/" + (MonthName(d2.month) + "/" + y2);
    SplitAtSlash(NatText(d1.day), MonthName(d1.month) + "/" + y1, NatText(d2.day), MonthName(d2.month) + "/" + y2);
    NatTextInjective(d1.day, d2.day);
    SplitAtSlash(MonthName(d1.month), y1, MonthName(d2.month), y2);
    MonthNameInjective(d1.month, d2.month);
    assert y1[0] == y2[0] && y1[1] == y2[1];
  }

  /** The value-wrapped fields compare by their underlying value. */
  datatype IssuePriority = IssuePriority(value: string)
  datatype IssueResolution = IssueResolution(value: string)

  /** The fields a caller can set and an update can change. */
  datatype Fields = Fields(
    summary: Option<string> := None,
    description: Option<string> := None,
    assignee: Option<string> := None,
    environment: Option<string> := None,
    project: Option<string> := None,
    reporter: Option<string> := None,
    status: Option<string> := None,
    issueType: Option<string> := None,
    priority: Option<IssuePriority> := None,
    resolution: Option<IssueResolution> := None,
    dueDate: Option<Date> := None)

  /** The eight plain string fields. */
  datatype TextField = Summary | Description | Assignee | Environment | Project | Reporter | Status | Type

  function GetText(f: Fields, field: TextField): Option<string>
  {
    match field
    case Summary => f.summary
    case Description => f.description
    case Assignee => f.assignee
    case Environment => f.environment
    case Project => f.project
    case Reporter => f.reporter
    case Status => f.status
    case Type => f.issueType
  }

  function WithText(f: Fields, field: TextField, v: Option<string>): (g: Fields)
    ensures GetText(g, field) == v
    ensures forall other :: other != field ==> GetText(g, other) == GetText(f, other)
    ensures g.priority == f.priority && g.resolution == f.resolution && g.dueDate == f.dueDate
  {
    match field
    case Summary => f.(summary := v)
    case Description => f.(description := v)
    case Assignee => f.(assignee := v)
    case Environment => f.(environment := v)
    case Project => f.(project := v)
    case Reporter => f.(reporter := v)
    case Status => f.(status := v)
    case Type => f.(issueType := v)
  }

  /** A value of the field schema: a nullable string, or a nullable date. */
  datatype FieldValue = TextValue(text: Option<string>) | DateValue(date: Option<Date>)

  /** What an update sends for a changed field. */
  function Serialize(v: FieldValue): Option<string>
  {
    match v
    case TextValue(t) => t
    case DateValue(d) => if d.Some? then Some(FormatDate(d.value)) else None
  }

  /** The remote identifiers of the schema's fields, in schema order. */
  const FieldIds: seq<string> :=
    ["summary", "description", "assignee", "environment", "project", "reporter", "status", "type",
     "priority", "resolution", "duedate"]

  function PriorityText(p: Option<IssuePriority>): Option<string>
  {
    if p.Some? then Some(p.value.value) else None
  }

  function ResolutionText(r: Option<IssueResolution>): Option<string>
  {
    if r.Some? then Some(r.value.value) else None
  }

  /** The fields' values in schema order. */
  function Values(f: Fields): (vs: seq<FieldValue>)
    ensures |vs| == |FieldIds|
  {
    [TextValue(f.summary), TextValue(f.description), TextValue(f.assignee), TextValue(f.environment),
     TextValue(f.project), TextValue(f.reporter), TextValue(f.status), TextValue(f.issueType),
     TextValue(PriorityText(f.priority)), TextValue(ResolutionText(f.resolution)), DateValue(f.dueDate)]
  }

  /** Two field sets with the same schema values are the same. */
  lemma ValuesInjective(f: Fields, g: Fields)
    requires Values(f) == Values(g)
    ensures f == g
  {
    assert Values(f)[8] == Values(g)[8] && Values(f)[9] == Values(g)[9];
  }

  /** One field's change: its identifier and the values sent for it. */
  datatype RemoteFieldValue = RemoteFieldValue(id: string, values: seq<Option<string>>)

  function Change(id: string, v: FieldValue): RemoteFieldValue
  {
    RemoteFieldValue(id, [Serialize(v)])
  }

  /** The number of schema positions at which the two value lists differ. */
  function Mismatches(before: seq<FieldValue>, after: seq<FieldValue>): nat
    requires |before| == |after|
  {
    if before == [] then 0
    else (if before[0] != after[0] then 1 else 0) + Mismatches(before[1..], after[1..])
  }

  /**
   * The schema-driven diff: for each position, in order, a descriptor of the new value when the
   * old and new values differ.
   */
  function Diff(ids: seq<string>, before: seq<FieldValue>, after: seq<FieldValue>): (r: seq<RemoteFieldValue>)
    requires |ids| == |before| == |after|
    ensures |r| == Mismatches(before, after)
    ensures r == [] <==> before == after
    ensures forall d :: d in r ==>
              exists i :: 0 <= i < |ids| && before[i] != after[i] && d == Change(ids[i], after[i])
    ensures forall i :: 0 <= i < |ids| && before[i] != after[i] ==> Change(ids[i], after[i]) in r
  {
    if ids == [] then []
    else
      var rest := Diff(ids[1..], before[1..], after[1..]);
      assert before == [before[0]] + before[1..] && after == [after[0]] + after[1..];
      if before[0] != after[0] then [Change(ids[0], after[0])] + rest else rest
  }

  /** When the lists differ at position `k` only, the diff is that one field's change. */
  lemma {:induction false} DiffOfOneChange(ids: seq<string>, before: seq<FieldValue>, after: seq<FieldValue>, k: nat)
    requires |ids| == |before| == |after| && k < |ids|
    requires before[k] != after[k]
    requires forall i :: 0 <= i < |ids| && i != k ==> before[i] == after[i]
    ensures Diff(ids, before, after) == [Change(ids[k], after[k])]
  {
    if k == 0 {
      assert before[1..] == after[1..];
    } else {
      DiffOfOneChange(ids[1..], before[1..], after[1..], k - 1);
    }
  }

  /** The fields an update of `current` against `original` sends: `GetUpdatedFields`. */
  function UpdatedFields(original: Fields, current: Fields): seq<RemoteFieldValue>
  {
    Diff(FieldIds, Values(original), Values(current))
  }

  /** An update is empty exactly when nothing differs from what was loaded. */
  lemma UpdatedFieldsEmptyIff(original: Fields, current: Fields)
    ensures UpdatedFields(original, current) == [] <==> original == current
  {
    if UpdatedFields(original, current) == [] {
      ValuesInjective(original, current);
    }
  }

  /** A string field set to a new value on otherwise unchanged fields gives exactly its change. */
  lemma UpdatedFieldsOneText(original: Fields, field: TextField, v: Option<string>)
    requires GetText(original, field) != v
    ensures
      var k := match field
        case Summary => 0 case Description => 1 case Assignee => 2 case Environment => 3
        case Project => 4 case Reporter => 5 case Status => 6 case Type => 7;
      UpdatedFields(original, WithText(original, field, v)) == [RemoteFieldValue(FieldIds[k], [v])]
  {
    var current := WithText(original, field, v);
    var k := match field
      case Summary => 0 case Description => 1 case Assignee => 2 case Environment => 3
      case Project => 4 case Reporter => 5 case Status => 6 case Type => 7;
    var before, after := Values(original), Values(current);
    forall i | 0 <= i < |FieldIds| && i != k
      ensures before[i] == after[i]
    {
    }
    DiffOfOneChange(FieldIds, before, after, k);
  }

  /** A due date set on otherwise unchanged fields gives one change carrying the formatted date. */
  lemma UpdatedFieldsDueDate(original: Fields, d: Date)
    requires original.dueDate != Some(d)
    ensures UpdatedFields(original, original.(dueDate := Some(d)))
         == [RemoteFieldValue("duedate", [Some(FormatDate(d))])]
  {
    var before, after := Values(original), Values(original.(dueDate := Some(d)));
    forall i | 0 <= i < |FieldIds| && i != 10
      ensures before[i] == after[i]
    {
    }
    DiffOfOneChange(FieldIds, before, after, 10);
  }

  /** A priority set on otherwise unchanged fields gives one change carrying its value. */
  lemma UpdatedFieldsPriority(original: Fields, p: IssuePriority)
    requires original.priority != Some(p)
    ensures UpdatedFields(original, original.(priority := Some(p)))
         == [RemoteFieldValue("priority", [Some(p.value)])]
  {
    var before, after := Values(original), Values(original.(priority := Some(p)));
    forall i | 0 <= i < |FieldIds| && i != 8
      ensures before[i] == after[i]
    {
    }
    DiffOfOneChange(FieldIds, before, after, 8);
  }

  /** An issue as the server sends and receives it. */
  datatype RemoteIssue = RemoteIssue(
    key: Option<string> := None,
    summary: Option<string> := None,
    description: Option<string> := None,
    assignee: Option<string> := None,
    environment: Option<string> := None,
    project: Option<string> := None,
    reporter: Option<string> := None,
    status: Option<string> := None,
    issueType: Option<string> := None,
    priority: Option<string> := None,
    resolution: Option<string> := None,
    created: Option<Date> := None,
    updated: Option<Date> := None,
    duedate: Option<Date> := None)

  /** A local issue: its key and timestamps, the values it was loaded with and its current ones. */
  datatype LocalIssue = LocalIssue(
    key: Option<string>, created: Option<Date>, updated: Option<Date>,
    original: Fields, current: Fields)

  /** A new issue: no key, nothing loaded, nothing set. */
  const NewIssue := LocalIssue(None, None, None, Fields(), Fields())

  /** `ToLocal`: the remote values are both what was loaded and what is current. */
  function ToLocal(r: RemoteIssue): (i: LocalIssue)
    ensures i.original == i.current
    ensures i.key == r.key && i.created == r.created && i.updated == r.updated
    ensures i.current.dueDate == r.duedate
    ensures PriorityText(i.current.priority) == r.priority
    ensures ResolutionText(i.current.resolution) == r.resolution
  {
    var f := Fields(
      summary := r.summary, description := r.description, assignee := r.assignee,
      environment := r.environment, project := r.project, reporter := r.reporter,
      status := r.status, issueType := r.issueType,
      priority := if r.priority.Some? then Some(IssuePriority(r.priority.value)) else None,
      resolution := if r.resolution.Some? then Some(IssueResolution(r.resolution.value)) else None,
      dueDate := r.duedate);
    LocalIssue(r.key, r.created, r.updated, f, f)
  }

  /** `ToRemote`: the current values and the key; the timestamps and the due date are not sent. */
  function ToRemote(i: LocalIssue): (r: RemoteIssue)
    ensures r.created.None? && r.updated.None? && r.duedate.None?
    ensures r.key == i.key
    ensures r.priority == PriorityText(i.current.priority)
    ensures r.resolution == ResolutionText(i.current.resolution)
  {
    var f := i.current;
    RemoteIssue(
      key := i.key, summary := f.summary, description := f.description, assignee := f.assignee,
      environment := f.environment, project := f.project, reporter := f.reporter,
      status := f.status, issueType := f.issueType,
      priority := PriorityText(f.priority), resolution := ResolutionText(f.resolution))
  }

  /** A freshly loaded issue has nothing to update. */
  lemma LoadedIssueUnchanged(r: RemoteIssue)
    ensures UpdatedFields(ToLocal(r).original, ToLocal(r).current) == []
  {
  }

  /** Converting to local and back keeps everything but the timestamps and the due date. */
  lemma ToLocalToRemote(r: RemoteIssue)
    ensures ToRemote(ToLocal(r)) == r.(created := None, updated := None, duedate := None)
  {
  }

  /** A new issue has no due date and nothing to update; set fields it does not have stay null. */
  lemma NewIssueDefaults()
    ensures NewIssue.current.dueDate.None? && UpdatedFields(NewIssue.original, NewIssue.current) == []
    ensures
      var r := ToRemote(NewIssue.(current := Fields(project := Some("TST"), issueType := Some("1"), summary := Some("Summary"))));
      r.priority.None? && r.key.None? && r.resolution.None?
  {
  }

  lemma {:induction false} MismatchesAppend(b1: seq<FieldValue>, a1: seq<FieldValue>, b2: seq<FieldValue>, a2: seq<FieldValue>)
    requires |b1| == |a1| && |b2| == |a2|
    ensures Mismatches(b1 + b2, a1 + a2) == Mismatches(b1, a1) + Mismatches(b2, a2)
  {
    if b1 != [] {
      assert (b1 + b2)[1..] == b1[1..] + b2 && (a1 + a2)[1..] == a1[1..] + a2;
      MismatchesAppend(b1[1..], a1[1..], b2, a2);
    } else {
      assert b1 + b2 == b2 && a1 + a2 == a2;
    }
  }

  /** Lists that differ everywhere differ at every position; equal lists nowhere. */
  lemma {:induction false} MismatchesExtremes(before: seq<FieldValue>, after: seq<FieldValue>)
    requires |before| == |after|
    ensures (forall i :: 0 <= i < |before| ==> before[i] != after[i]) ==> Mismatches(before, after) == |before|
    ensures before == after ==> Mismatches(before, after) == 0
  {
    if before != [] {
      MismatchesExtremes(before[1..], after[1..]);
      if forall i :: 0 <= i < |before| ==> before[i] != after[i] {
        assert forall i :: 0 <= i < |before[1..]| ==> before[1..][i] == before[i + 1];
      }
    }
  }

  /** Setting all eight string fields of a new issue gives eight changes. */
  lemma AllTextFieldsChanged(v: string)
    ensures |UpdatedFields(Fields(), Fields(Some(v), Some(v), Some(v), Some(v), Some(v), Some(v), Some(v), Some(v)))| == 8
  {
    var after := Fields(Some(v), Some(v), Some(v), Some(v), Some(v), Some(v), Some(v), Some(v));
    var n, t := TextValue(None), TextValue(Some(v));
    var rest := [TextValue(None), TextValue(None), DateValue(None)];
    var b8, a8 := [n, n, n, n, n, n, n, n], [t, t, t, t, t, t, t, t];
    assert Values(Fields()) == b8 + rest;
    assert Values(after) == a8 + rest;
    MismatchesAppend(b8, a8, rest, rest);
    MismatchesExtremes(b8, a8);
    MismatchesExtremes(rest, rest);
  }

  /** Loaded values set again to what they were, and null fields left null, change nothing. */
  lemma SameValuesUnchanged()
    ensures
      var loaded := ToLocal(RemoteIssue(summary := Some("Summary")));
      UpdatedFields(loaded.original, WithText(WithText(loaded.current, Summary, Some("Summary")), Status, None)) == []
    ensures
      var loaded := ToLocal(RemoteIssue(priority := Some("High")));
      UpdatedFields(loaded.original, loaded.current.(priority := Some(IssuePriority("High")), resolution := None)) == []
  {
  }

  /** An attachment as the server lists it, and as the library hands it out. */
  datatype RemoteAttachment = RemoteAttachment(filename: string)
  datatype Attachment = Attachment(fileName: string)

  /** What an upload sends: the issue key and the names of the files. */
  datatype UploadRequest = UploadRequest(issueKey: string, fileNames: seq<string>)

  /** Thrown (as `InvalidOperationException`) by operations on an issue not yet created. */
  datatype IssueError = IssueNotCreated

  function Attachments(rs: seq<RemoteAttachment>): (r: seq<Attachment>)
    ensures |r| == |rs|
    ensures forall i :: 0 <= i < |rs| ==> r[i].fileName == rs[i].filename
  {
    if rs == [] then [] else [Attachment(rs[0].filename)] + Attachments(rs[1..])
  }

  /** A local issue object: setters change only the current values. */
  class Issue {
    const key: Option<string>
    const created: Option<Date>
    const updated: Option<Date>
    const original: Fields
    var fields: Fields

    function Snapshot(): LocalIssue
      reads this
    {
      LocalIssue(key, created, updated, original, fields)
    }

    /** `new Issue()`. */
    constructor ()
      ensures Snapshot() == NewIssue
    {
      key, created, updated := None, None, None;
      original := Fields();
      fields := Fields();
    }

    /** `remoteIssue.ToLocal()`. */
    constructor FromRemote(r: RemoteIssue)
      ensures Snapshot() == ToLocal(r)
    {
      var i := ToLocal(r);
      key, created, updated := i.key, i.created, i.updated;
      original := i.original;
      fields := i.current;
    }

    method SetText(field: TextField, v: Option<string>)
      modifies this
      ensures fields == WithText(old(fields), field, v)
    {
      fields := WithText(fields, field, v);
    }

    method SetPriority(p: Option<IssuePriority>)
      modifies this
      ensures fields == old(fields).(priority := p)
    {
      fields := fields.(priority := p);
    }

    method SetResolution(r: Option<IssueResolution>)
      modifies this
      ensures fields == old(fields).(resolution := r)
    {
      fields := fields.(resolution := r);
    }

    method SetDueDate(d: Option<Date>)
      modifies this
      ensures fields == old(fields).(dueDate := d)
    {
      fields := fields.(dueDate := d);
    }

    /**
     * `GetUpdatedFields`: one descriptor per field whose current value differs from the loaded
     * one, and none at all when nothing differs.
     */
    method GetUpdatedFields() returns (r: seq<RemoteFieldValue>)
      ensures r == UpdatedFields(original, fields)
      ensures r == [] <==> fields == original
    {
      r := UpdatedFields(original, fields);
      UpdatedFieldsEmptyIff(original, fields);
    }

    /** `GetAttachments`: the attachments the server lists for the issue's key. */
    method GetAttachments(listed: string -> seq<RemoteAttachment>) returns (r: Result<seq<Attachment>, IssueError>)
      ensures key.None? ==> r == Failure(IssueNotCreated)
      ensures key.Some? ==> r.Success? && |r.value| == |listed(key.value)|
      ensures key.Some? ==> forall i :: 0 <= i < |r.value| ==> r.value[i].fileName == listed(key.value)[i].filename
    {
      if key.None? {
        return Failure(IssueNotCreated);
      }
      r := Success(Attachments(listed(key.value)));
    }

    /** `UploadAttachments`: the upload of the named files to the issue's key. */
    method UploadAttachments(fileNames: seq<string>) returns (r: Result<UploadRequest, IssueError>)
      ensures key.None? ==> r == Failure(IssueNotCreated)
      ensures key.Some? ==> r == Success(UploadRequest(key.value, fileNames))
    {
      if key.None? {
        return Failure(IssueNotCreated);
      }
      r := Success(UploadRequest(key.value, fileNames));
    }
  }
}
