/** Bulk import of employee numbers: a plan that classifies the rows of a file against the
    directory, in which the last row of an email decides, and the phase that writes the
    planned updates row by row. */
module EmployeeNumberImport {
  import opened Options
  import opened Sequences
  import opened Text

  datatype CsvRow = CsvRow(emailText: string, numberText: string) {
    function Email(): string { Strip(emailText) }
    function Number(): string { Strip(numberText) }
  }

  datatype Account = Account(displayName: string, number: string)

  /** Blanks around the two columns do not count. */
  lemma ColumnsAreStripped(left: string, email: string, number: string, right: string)
    requires forall c :: c in left || c in right ==> IsSpace(c)
    requires email != "" && Trimmed(email, Blanks) && number != "" && Trimmed(number, Blanks)
    ensures CsvRow(left + email + right, left + number + right).Email() == email
    ensures CsvRow(left + email + right, left + number + right).Number() == number
    ensures CsvRow(left, right).Email() == "" && CsvRow(left, right).Number() == ""
  {
    TrimTakesEnds(left, email, right, Blanks);
    TrimTakesEnds(left, number, right, Blanks);
    TrimmedAway(left, Blanks);
    TrimmedAway(right, Blanks);
  }

  /** Accounts by their SAM account name, and the name an email resolves to. */
  datatype Directory = Directory(resolve: map<string, string>, accounts: map<string, Account>)

  predicate Resolves(d: Directory, email: string) {
    email in d.resolve && d.resolve[email] in d.accounts
  }

  datatype Action = Update | NoChange | NotFound | SkippedBlank | SkippedDuplicate

  datatype Planned = Planned(
    rowIndex: nat, email: string, sam: string, displayName: string, current: string, number: string, action: Action)

  // ----- The plan ------------------------------------------------------------------------------

  /** The last row with an email, blank or not in its number; -1 if there is none. */
  function LastIndex(rows: seq<CsvRow>, email: string): (last: int)
    ensures -1 <= last < |rows|
  {
    if rows == [] then -1
    else if rows[|rows| - 1].Email() == email then |rows| - 1
    else LastIndex(rows[..|rows| - 1], email)
  }

  /** The row is looked up in the directory. */
  predicate Reaches(rows: seq<CsvRow>, i: nat)
    requires i < |rows|
  {
    rows[i].Number() != "" && rows[i].Email() != "" && LastIndex(rows, rows[i].Email()) == i
  }

  function PlanRow(rows: seq<CsvRow>, d: Directory, i: nat): Planned
    requires i < |rows|
  {
    var email, number := rows[i].Email(), rows[i].Number();
    if number == "" then Planned(i, email, "", "", "", number, SkippedBlank)
    else if email != "" && LastIndex(rows, email) != i then Planned(i, email, "", "", "", number, SkippedDuplicate)
    else if email == "" || !Resolves(d, email) then Planned(i, email, "", "", "", number, NotFound)
    else
      var sam := d.resolve[email];
      var account := d.accounts[sam];
      Planned(i, email, sam, account.displayName, account.number, number,
              if account.number == number then NoChange else Update)
  }

  function Plan(rows: seq<CsvRow>, d: Directory): (plan: seq<Planned>)
    ensures |plan| == |rows|
  {
    seq(|rows|, i requires 0 <= i < |rows| => PlanRow(rows, d, i))
  }

  /** The emails that some of the first `n` rows ask the directory for. */
  function Asked(rows: seq<CsvRow>, n: nat): seq<string>
    requires n <= |rows|
  {
    if n == 0 then [] else Asked(rows, n - 1) + (if Reaches(rows, n - 1) then [rows[n - 1].Email()] else [])
  }

  lemma {:induction false} LastIndexIsLast(rows: seq<CsvRow>, email: string)
    ensures LastIndex(rows, email) >= 0 ==> rows[LastIndex(rows, email)].Email() == email
    ensures forall j :: LastIndex(rows, email) < j < |rows| ==> rows[j].Email() != email
  {
    if rows != [] {
      LastIndexIsLast(rows[..|rows| - 1], email);
    }
  }

  predicate ReachesAs(rows: seq<CsvRow>, i: nat, email: string)
    requires i < |rows|
  {
    Reaches(rows, i) && rows[i].Email() == email
  }

  /** A row is looked up exactly when it has an email and a number and no later row has the
      same email. */
  lemma ReachesIff(rows: seq<CsvRow>, i: nat)
    requires i < |rows|
    ensures Reaches(rows, i) <==>
      && rows[i].Number() != "" && rows[i].Email() != ""
      && forall j :: i < j < |rows| ==> rows[j].Email() != rows[i].Email()
  {
    LastIndexIsLast(rows, rows[i].Email());
  }

  /** An email is looked up exactly when its last row has a number: a later row with a blank
      number takes the place of an earlier filled one, and nothing is written. */
  lemma LastRowDecides(rows: seq<CsvRow>, email: string)
    requires email != ""
    ensures (exists i: nat :: i < |rows| && ReachesAs(rows, i, email)) <==>
      LastIndex(rows, email) >= 0 && rows[LastIndex(rows, email)].Number() != ""
  {
    LastIndexIsLast(rows, email);
    if LastIndex(rows, email) >= 0 && rows[LastIndex(rows, email)].Number() != "" {
      assert ReachesAs(rows, LastIndex(rows, email), email);
    }
  }

  lemma AskedExtends(rows: seq<CsvRow>, n: nat, email: string)
    requires 0 < n <= |rows|
    ensures email in Asked(rows, n) <==> email in Asked(rows, n - 1) || ReachesAs(rows, n - 1, email)
  {
    assert Asked(rows, n) == Asked(rows, n - 1) + (if Reaches(rows, n - 1) then [rows[n - 1].Email()] else []);
  }

  lemma {:induction false} AskedReach(rows: seq<CsvRow>, n: nat, email: string)
    requires n <= |rows|
    ensures email in Asked(rows, n) <==> exists i: nat :: i < n && ReachesAs(rows, i, email)
  {
    if n > 0 {
      AskedReach(rows, n - 1, email);
      AskedExtends(rows, n, email);
    }
  }

  /** No email is looked up twice. */
  lemma {:induction false} AskedOnce(rows: seq<CsvRow>, n: nat, j: nat, k: nat)
    requires n <= |rows| && j < k < |Asked(rows, n)|
    ensures Asked(rows, n)[j] != Asked(rows, n)[k]
  {
    var before := Asked(rows, n - 1);
    assert Asked(rows, n) == before + (if Reaches(rows, n - 1) then [rows[n - 1].Email()] else []);
    if k < |before| {
      AskedOnce(rows, n - 1, j, k);
    } else {
      assert before[j] in before;
      AskedReach(rows, n - 1, before[j]);
      var i: nat :| i < n - 1 && ReachesAs(rows, i, before[j]);
      OneReaches(rows, i, n - 1);
    }
  }

  lemma OneReaches(rows: seq<CsvRow>, i: nat, j: nat)
    requires i < |rows| && j < |rows| && Reaches(rows, i) && Reaches(rows, j) && i != j
    ensures rows[i].Email() != rows[j].Email()
  {
  }

  /** What a planned action says about its row and the directory. */
  lemma PlannedAction(rows: seq<CsvRow>, d: Directory, i: nat)
    requires i < |rows|
    ensures var p, row := Plan(rows, d)[i], rows[i];
      && p.rowIndex == i && p.email == row.Email() && p.number == row.Number()
      && (p.action == SkippedBlank <==> row.Number() == "")
      && (p.action == SkippedDuplicate <==>
            row.Number() != "" && row.Email() != "" && exists j :: i < j < |rows| && rows[j].Email() == row.Email())
      && (p.action == NotFound <==>
        row.Number() != "" && (row.Email() == "" || (Reaches(rows, i) && !Resolves(d, row.Email()))))
      && (p.action in {Update, NoChange} <==> Reaches(rows, i) && Resolves(d, row.Email()))
      && (if p.action in {Update, NoChange}
          then p.sam == d.resolve[row.Email()] && Account(p.displayName, p.current) == d.accounts[p.sam]
          else p.sam == "" && p.displayName == "" && p.current == "")
      && (p.action == Update ==> d.accounts[p.sam].number != p.number)
      && (p.action == NoChange ==> d.accounts[p.sam].number == p.number)
  {
    ReachesIff(rows, i);
    LastIndexIsLast(rows, rows[i].Email());
  }

  // ----- The counts ----------------------------------------------------------------------------------

  function CountOf(plan: seq<Planned>, actions: set<Action>): nat {
    if plan == [] then 0
    else CountOf(plan[..|plan| - 1], actions) + (if plan[|plan| - 1].action in actions then 1 else 0)
  }

  datatype Counts = Counts(update: nat, noChange: nat, notFound: nat, skipped: nat)

  /** The four counts add up to the number of rows. */
  method CountActions(plan: seq<Planned>) returns (counts: Counts)
    ensures counts.update == CountOf(plan, {Update}) && counts.noChange == CountOf(plan, {NoChange})
    ensures counts.notFound == CountOf(plan, {NotFound})
    ensures counts.skipped == CountOf(plan, {SkippedBlank, SkippedDuplicate})
    ensures counts.update + counts.noChange + counts.notFound + counts.skipped == |plan|
  {
    counts := Counts(0, 0, 0, 0);
    for i := 0 to |plan|
      invariant counts.update == CountOf(plan[..i], {Update}) && counts.noChange == CountOf(plan[..i], {NoChange})
      invariant counts.notFound == CountOf(plan[..i], {NotFound})
      invariant counts.skipped == CountOf(plan[..i], {SkippedBlank, SkippedDuplicate})
      invariant counts.update + counts.noChange + counts.notFound + counts.skipped == i
    {
      assert plan[..i + 1][..i] == plan[..i];
      match plan[i].action
      case Update => counts := counts.(update := counts.update + 1);
      case NoChange => counts := counts.(noChange := counts.noChange + 1);
      case NotFound => counts := counts.(notFound := counts.notFound + 1);
      case SkippedBlank => counts := counts.(skipped := counts.skipped + 1);
      case SkippedDuplicate => counts := counts.(skipped := counts.skipped + 1);
    }
    assert plan[..|plan|] == plan;
  }

  // ----- The directory and the planning loops --------------------------------------------------------

  datatype Found = Found(sam: string, account: Account)

  class ActiveDirectory {
    var directory: Directory
    ghost var asked: seq<string>

    constructor (directory: Directory)
      ensures this.directory == directory && asked == []
    {
      this.directory := directory;
      asked := [];
    }

    method FindUser(email: string) returns (found: Option<Found>)
      modifies this`asked
      ensures asked == old(asked) + [email]
      ensures found.Some? <==> Resolves(directory, email)
      ensures found.Some? ==>
        found.value == Found(directory.resolve[email], directory.accounts[directory.resolve[email]])
    {
      asked := asked + [email];
      found := None;
      if email in directory.resolve && directory.resolve[email] in directory.accounts {
        found := Some(Found(directory.resolve[email], directory.accounts[directory.resolve[email]]));
      }
    }

    /** A write that is refused, or names no account, changes nothing. */
    method UpdateUser(sam: string, number: string, accepted: bool) returns (ok: bool)
      modifies this`directory
      ensures ok == (accepted && sam in old(directory).accounts)
      ensures directory == if ok then Written(old(directory), sam, number) else old(directory)
    {
      ok := accepted && sam in directory.accounts;
      if ok {
        directory := Written(directory, sam, number);
      }
    }
  }

  /** The first loop: the last row of each email, filled or not. */
  method LastIndices(rows: seq<CsvRow>) returns (last: map<string, nat>)
    ensures forall email :: email in last <==> email != "" && LastIndex(rows, email) >= 0
    ensures forall email :: email in last ==> last[email] == LastIndex(rows, email)
  {
    last := map[];
    for i := 0 to |rows|
      invariant forall email :: email in last <==> email != "" && LastIndex(rows[..i], email) >= 0
      invariant forall email :: email in last ==> last[email] == LastIndex(rows[..i], email)
    {
      assert rows[..i + 1][..i] == rows[..i];
      var email := rows[i].Email();
      if email != "" {
        last := last[email := i];
      }
    }
    assert rows[..|rows|] == rows;
  }

  method PlanOneRow(rows: seq<CsvRow>, i: nat, last: map<string, int>, ad: ActiveDirectory) returns (row: Planned)
    requires i < |rows|
    requires var email := rows[i].Email(); email != "" ==>
      (email in last && last[email] == i <==> LastIndex(rows, email) == i)
    modifies ad`asked
    ensures row == PlanRow(rows, ad.directory, i)
    ensures ad.asked == old(ad.asked) + if Reaches(rows, i) then [rows[i].Email()] else []
  {
    var email, number := rows[i].Email(), rows[i].Number();
    row := Planned(i, email, "", "", "", number, NotFound);
    if number == "" {
      row := row.(action := SkippedBlank);
    } else if email != "" && !(email in last && last[email] == i) {
      row := row.(action := SkippedDuplicate);
    } else if email != "" {
      var found := ad.FindUser(email);
      if found.Some? {
        var account := found.value.account;
        row := row.(sam := found.value.sam, displayName := account.displayName, current := account.number,
                    action := if account.number == number then NoChange else Update);
      }
    }
  }

  /** The plan asks the directory for each looked-up email, once and in file order. */
  method BuildRowPlan(rows: seq<CsvRow>, ad: ActiveDirectory) returns (plan: seq<Planned>)
    modifies ad`asked
    ensures plan == Plan(rows, ad.directory)
    ensures ad.asked == old(ad.asked) + Asked(rows, |rows|)
  {
    var last := LastIndices(rows);
    plan := [];
    ghost var asked := ad.asked;
    for i := 0 to |rows|
      invariant plan == Plan(rows, ad.directory)[..i]
      invariant ad.asked == asked + Asked(rows, i)
    {
      var row := PlanOneRow(rows, i, last, ad);
      PlanExtends(rows, ad.directory, i);
      plan := plan + [row];
    }
  }

  lemma PlanExtends(rows: seq<CsvRow>, d: Directory, i: nat)
    requires i < |rows|
    ensures Plan(rows, d)[..i + 1] == Plan(rows, d)[..i] + [PlanRow(rows, d, i)]
  {
  }

  // ----- The writes ------------------------------------------------------------------------------------

  function Written(d: Directory, sam: string, number: string): Directory
    requires sam in d.accounts
  {
    d.(accounts := d.accounts[sam := d.accounts[sam].(number := number)])
  }

  datatype StoredRow = StoredRow(id: string, plan: Planned)

  datatype Mark = Mark(applied: bool, failed: bool)

  /** Whether the write of the `i`th update goes through. */
  predicate Succeeds(d: Directory, updates: seq<StoredRow>, excluded: set<string>, accepted: seq<bool>, i: nat)
    requires i < |updates| == |accepted|
  {
    updates[i].id !in excluded && accepted[i] && updates[i].plan.sam in d.accounts
  }

  function AfterWrites(d: Directory, updates: seq<StoredRow>, excluded: set<string>,
      accepted: seq<bool>): (after: Directory)
    requires |updates| == |accepted|
    ensures after.accounts.Keys == d.accounts.Keys && after.resolve == d.resolve
  {
    if updates == [] then d
    else
      var n := |updates| - 1;
      var before := AfterWrites(d, updates[..n], excluded, accepted[..n]);
      if Succeeds(d, updates, excluded, accepted, n)
      then Written(before, updates[n].plan.sam, updates[n].plan.number)
      else before
  }

  function MarksAfter(
    marks: map<string, Mark>, d: Directory, updates: seq<StoredRow>,
    excluded: set<string>, accepted: seq<bool>): map<string, Mark>
    requires |updates| == |accepted|
  {
    if updates == [] then marks
    else
      var n := |updates| - 1;
      var before := MarksAfter(marks, d, updates[..n], excluded, accepted[..n]);
      if updates[n].id in excluded then before
      else
        var ok := Succeeds(d, updates, excluded, accepted, n);
        before[updates[n].id := Mark(ok, !ok)]
  }

  /** The number that the last successful write gives an account. */
  function LastWrite(d: Directory, updates: seq<StoredRow>, excluded: set<string>, accepted: seq<bool>,
      sam: string): Option<string>
    requires |updates| == |accepted|
  {
    if updates == [] then None
    else
      var n := |updates| - 1;
      if Succeeds(d, updates, excluded, accepted, n) && updates[n].plan.sam == sam then Some(updates[n].plan.number)
      else LastWrite(d, updates[..n], excluded, accepted[..n], sam)
  }

  /** Writing changes numbers only, and those to the last value successfully written. */
  lemma {:induction false} WritesLeaveLastValue(
    d: Directory, updates: seq<StoredRow>, excluded: set<string>, accepted: seq<bool>, sam: string)
    requires |updates| == |accepted| && sam in d.accounts
    ensures var account := AfterWrites(d, updates, excluded, accepted).accounts[sam];
      var w := LastWrite(d, updates, excluded, accepted, sam);
      && account.displayName == d.accounts[sam].displayName
      && account.number == if w.Some? then w.value else d.accounts[sam].number
  {
    if updates != [] {
      WritesLeaveLastValue(d, updates[..|updates| - 1], excluded, accepted[..|updates| - 1], sam);
    }
  }

  /** A successful write to an account that no later one follows. */
  ghost predicate IsLastWrite(d: Directory, updates: seq<StoredRow>, excluded: set<string>, accepted: seq<bool>,
      sam: string, i: nat)
    requires |updates| == |accepted|
  {
    && WritesTo(d, updates, excluded, accepted, sam, i)
    && forall j: nat :: i < j ==> !WritesTo(d, updates, excluded, accepted, sam, j)
  }

  predicate WritesTo(d: Directory, updates: seq<StoredRow>, excluded: set<string>, accepted: seq<bool>,
      sam: string, i: nat)
    requires |updates| == |accepted|
  {
    && i < |updates| && updates[i].id !in excluded && accepted[i]
    && updates[i].plan.sam == sam && sam in d.accounts
  }

  lemma WritesToFront(d: Directory, updates: seq<StoredRow>, excluded: set<string>, accepted: seq<bool>,
      sam: string, i: nat)
    requires |updates| == |accepted| && i + 1 < |updates|
    ensures var n := |updates| - 1;
      WritesTo(d, updates[..n], excluded, accepted[..n], sam, i) <==> WritesTo(d, updates, excluded, accepted, sam, i)
  {
  }

  /** The last value is that of the last row for the account that is neither excluded nor
      refused. */
  lemma {:induction false} LastWriteIsLast(
    d: Directory, updates: seq<StoredRow>, excluded: set<string>, accepted: seq<bool>, sam: string)
    requires |updates| == |accepted|
    ensures var w := LastWrite(d, updates, excluded, accepted, sam);
      if w.Some?
      then exists i: nat :: IsLastWrite(d, updates, excluded, accepted, sam, i) && updates[i].plan.number == w.value
      else forall i: nat :: !WritesTo(d, updates, excluded, accepted, sam, i)
  {
    if updates != [] {
      var n := |updates| - 1;
      LastWriteIsLast(d, updates[..n], excluded, accepted[..n], sam);
      forall i: nat | i < n
        ensures WritesTo(d, updates[..n], excluded, accepted[..n], sam, i) <==>
          WritesTo(d, updates, excluded, accepted, sam, i)
      {
        WritesToFront(d, updates, excluded, accepted, sam, i);
      }
      if WritesTo(d, updates, excluded, accepted, sam, n) {
        assert IsLastWrite(d, updates, excluded, accepted, sam, n);
      } else if LastWrite(d, updates, excluded, accepted, sam).Some? {
        var i: nat :| IsLastWrite(d, updates[..n], excluded, accepted[..n], sam, i)
          && updates[..n][i].plan.number == LastWrite(d, updates, excluded, accepted, sam).value;
        assert IsLastWrite(d, updates, excluded, accepted, sam, i);
      }
    }
  }

  /** The row of an id that no later row has is marked as applied or failed, as its write
      went; an excluded row's mark stays. */
  lemma {:induction false} MarkSaysOutcome(
    marks: map<string, Mark>, d: Directory, updates: seq<StoredRow>, excluded: set<string>, accepted: seq<bool>,
    i: nat)
    requires i < |updates| == |accepted|
    requires forall j :: i < j < |updates| ==> updates[j].id != updates[i].id
    ensures var after, id := MarksAfter(marks, d, updates, excluded, accepted), updates[i].id;
      if id in excluded then (id in after <==> id in marks) && (id in marks ==> after[id] == marks[id])
      else
        var written := accepted[i] && updates[i].plan.sam in d.accounts;
        id in after && after[id].applied == written && after[id].failed == !written
  {
    var n := |updates| - 1;
    if updates[i].id in excluded {
      OtherMarksStay(marks, d, updates, excluded, accepted, updates[i].id);
    } else if i < n {
      MarkSaysOutcome(marks, d, updates[..n], excluded, accepted[..n], i);
    }
  }

  /** A row that is excluded, or no update, keeps its mark. */
  lemma {:induction false} OtherMarksStay(
    marks: map<string, Mark>, d: Directory, updates: seq<StoredRow>, excluded: set<string>, accepted: seq<bool>,
    id: string)
    requires |updates| == |accepted|
    requires id in excluded || forall row :: row in updates ==> row.id != id
    ensures var after := MarksAfter(marks, d, updates, excluded, accepted);
      (id in after <==> id in marks) && (id in marks ==> after[id] == marks[id])
  {
    if updates != [] {
      var n := |updates| - 1;
      assert updates[n] in updates;
      OtherMarksStay(marks, d, updates[..n], excluded, accepted[..n], id);
    }
  }

  function ExcludedAmong(updates: seq<StoredRow>, excluded: set<string>): nat {
    if updates == [] then 0
    else ExcludedAmong(updates[..|updates| - 1], excluded) + (if updates[|updates| - 1].id in excluded then 1 else 0)
  }

  function UpdateRows(rows: seq<StoredRow>): seq<StoredRow> {
    if rows == [] then []
    else UpdateRows(rows[..|rows| - 1]) + (if rows[|rows| - 1].plan.action == Update then [rows[|rows| - 1]] else [])
  }

  class ImportJob {
    var rows: seq<StoredRow>
    var marks: map<string, Mark>
    var appliedCount: nat
    var failedCount: nat

    method ListUpdates() returns (updates: seq<StoredRow>)
      ensures updates == UpdateRows(rows)
    {
      updates := [];
      for i := 0 to |rows|
        invariant updates == UpdateRows(rows[..i])
      {
        assert rows[..i + 1][..i] == rows[..i];
        if rows[i].plan.action == Update {
          updates := updates + [rows[i]];
        }
      }
      assert rows[..|rows|] == rows;
    }

    method MarkRowApplied(id: string, applied: bool)
      modifies this`marks
      ensures marks == old(marks)[id := Mark(applied, !applied)]
    {
      marks := marks[id := Mark(applied, !applied)];
    }
  }

  /** `accepted` says which writes the directory lets through. Every update row is applied,
      failed or excluded. */
  method RunApplyPhase(job: ImportJob, ad: ActiveDirectory, excluded: set<string>, accepted: seq<bool>)
      returns (withErrors: bool)
    requires |accepted| == |UpdateRows(job.rows)|
    modifies job`marks, job`appliedCount, job`failedCount, ad`directory
    ensures ad.directory == AfterWrites(old(ad.directory), UpdateRows(job.rows), excluded, accepted)
    ensures job.marks == MarksAfter(old(job.marks), old(ad.directory), UpdateRows(job.rows), excluded, accepted)
    ensures job.appliedCount + job.failedCount + ExcludedAmong(UpdateRows(job.rows), excluded) == |UpdateRows(job.rows)|
    ensures job.appliedCount == Successes(old(ad.directory), UpdateRows(job.rows), excluded, accepted)
    ensures withErrors == (job.failedCount > 0)
  {
    var updates := job.ListUpdates();
    ghost var d, marks := ad.directory, job.marks;
    var applied, failed := 0, 0;
    for i := 0 to |updates|
      invariant ad.directory == AfterWrites(d, updates[..i], excluded, accepted[..i])
      invariant job.marks == MarksAfter(marks, d, updates[..i], excluded, accepted[..i])
      invariant applied == Successes(d, updates[..i], excluded, accepted[..i])
      invariant applied + failed + ExcludedAmong(updates[..i], excluded) == i
    {
      assert updates[..i + 1][..i] == updates[..i] && accepted[..i + 1][..i] == accepted[..i];
      var row := updates[i];
      if row.id in excluded {
        continue;
      }
      var ok := ad.UpdateUser(row.plan.sam, row.plan.number, accepted[i]);
      job.MarkRowApplied(row.id, ok);
      if ok {
        applied := applied + 1;
      } else {
        failed := failed + 1;
      }
    }
    assert updates[..|updates|] == updates && accepted[..|accepted|] == accepted;
    job.appliedCount, job.failedCount := applied, failed;
    withErrors := failed > 0;
  }

  function Successes(d: Directory, updates: seq<StoredRow>, excluded: set<string>, accepted: seq<bool>): nat
    requires |updates| == |accepted|
  {
    if updates == [] then 0
    else
      var n := |updates| - 1;
      Successes(d, updates[..n], excluded, accepted[..n])
      + (if Succeeds(d, updates, excluded, accepted, n) then 1 else 0)
  }

  ghost function WrittenAt(d: Directory, updates: seq<StoredRow>, excluded: set<string>, accepted: seq<bool>): set<nat>
    requires |updates| == |accepted|
  {
    set i: nat | i < |updates| && WritesTo(d, updates, excluded, accepted, updates[i].plan.sam, i)
  }

  lemma WrittenAtExtends(d: Directory, updates: seq<StoredRow>, excluded: set<string>, accepted: seq<bool>)
    requires 0 < |updates| == |accepted|
    ensures var n := |updates| - 1;
      WrittenAt(d, updates, excluded, accepted) ==
        WrittenAt(d, updates[..n], excluded, accepted[..n])
        + if WritesTo(d, updates, excluded, accepted, updates[n].plan.sam, n) then {n} else {}
  {
    forall i: nat | i + 1 < |updates|
      ensures i in WrittenAt(d, updates, excluded, accepted) <==>
        i in WrittenAt(d, updates[..|updates| - 1], excluded, accepted[..|updates| - 1])
    {
      WritesToFront(d, updates, excluded, accepted, updates[i].plan.sam, i);
    }
  }

  /** The applied count is the number of rows that are neither excluded nor refused and name
      an account. */
  lemma {:induction false} SuccessesAreCounted(
    d: Directory, updates: seq<StoredRow>, excluded: set<string>, accepted: seq<bool>)
    requires |updates| == |accepted|
    ensures Successes(d, updates, excluded, accepted) == |WrittenAt(d, updates, excluded, accepted)|
  {
    if updates != [] {
      var n := |updates| - 1;
      SuccessesAreCounted(d, updates[..n], excluded, accepted[..n]);
      WrittenAtExtends(d, updates, excluded, accepted);
    }
  }

  /** The rows that are written are the planned updates, in file order. */
  lemma {:induction false} UpdateRowsPick(stored: seq<StoredRow>) returns (places: seq<nat>)
    ensures Picks(places, stored, UpdateRows(stored))
    ensures forall i: nat :: i in places <==> i < |stored| && stored[i].plan.action == Update
  {
    places := [];
    if stored != [] {
      var before, last := stored[..|stored| - 1], stored[|stored| - 1];
      assert stored == before + [last];
      var front := UpdateRowsPick(before);
      var update := last.plan.action == Update;
      PicksGrow(front, before, UpdateRows(before), last);
      places := if update then front + [|before|] else front;
      forall i: nat ensures i in places <==> i < |stored| && stored[i].plan.action == Update {
        assert i in front <==> i < |before| && before[i].plan.action == Update;
        assert i in places <==> i in front || (i == |before| && update);
      }
    }
  }

  // ----- Planning again ----------------------------------------------------------------------------------

  /** The stored rows hold a plan. */
  predicate Stores(stored: seq<StoredRow>, plan: seq<Planned>) {
    |stored| == |plan| && forall i :: 0 <= i < |plan| ==> stored[i].plan == plan[i]
  }

  /** Rows that are looked up and name the same account carry the same number. */
  ghost predicate Agree(rows: seq<CsvRow>, d: Directory) {
    forall i: nat, j: nat ::
      i < |rows| && j < |rows| && SameAccount(rows, d, i, j) ==> rows[i].Number() == rows[j].Number()
  }

  predicate SameAccount(rows: seq<CsvRow>, d: Directory, i: nat, j: nat)
    requires i < |rows| && j < |rows|
  {
    && Reaches(rows, i) && Resolves(d, rows[i].Email())
    && Reaches(rows, j) && Resolves(d, rows[j].Email())
    && d.resolve[rows[i].Email()] == d.resolve[rows[j].Email()]
  }

  lemma {:induction false} UpdateRowsAre(stored: seq<StoredRow>, row: StoredRow)
    ensures row in UpdateRows(stored) <==> row in stored && row.plan.action == Update
  {
    if stored != [] {
      UpdateRowsAre(stored[..|stored| - 1], row);
      assert stored == stored[..|stored| - 1] + [stored[|stored| - 1]];
    }
  }

  /** With nothing refused or excluded, the last write to an account comes from one of its
      rows, and an account with a row is written. */
  lemma {:induction false} LastWriteIsOfRow(d: Directory, updates: seq<StoredRow>, accepted: seq<bool>, sam: string)
    requires |updates| == |accepted| && (forall a :: a in accepted ==> a) && sam in d.accounts
    ensures var w := LastWrite(d, updates, {}, accepted, sam);
      if w.Some? then exists row :: row in updates && row.plan.sam == sam && row.plan.number == w.value
      else forall row :: row in updates ==> row.plan.sam != sam
  {
    if updates != [] {
      var n := |updates| - 1;
      assert accepted[n] in accepted && forall a :: a in accepted[..n] ==> a in accepted;
      LastWriteIsOfRow(d, updates[..n], accepted[..n], sam);
      assert updates == updates[..n] + [updates[n]];
    }
  }

  /** Whether a row would be an update again after the writes. */
  lemma RowAfterWrites(rows: seq<CsvRow>, d: Directory, stored: seq<StoredRow>, accepted: seq<bool>, i: nat)
    requires i < |rows| && Stores(stored, Plan(rows, d))
    requires |accepted| == |UpdateRows(stored)| && (forall a :: a in accepted ==> a)
    requires Agree(rows, d)
    ensures Plan(rows, AfterWrites(d, UpdateRows(stored), {}, accepted))[i].action != Update
  {
    var updates := UpdateRows(stored);
    var after := AfterWrites(d, updates, {}, accepted);
    PlannedAction(rows, d, i);
    PlannedAction(rows, after, i);
    if Plan(rows, d)[i].action in {Update, NoChange} {
      var sam := d.resolve[rows[i].Email()];
      WritesLeaveLastValue(d, updates, {}, accepted, sam);
      LastWriteIsOfRow(d, updates, accepted, sam);
      UpdateRowsAre(stored, stored[i]);
      var w := LastWrite(d, updates, {}, accepted, sam);
      if w.Some? {
        var row :| row in updates && row.plan.sam == sam && row.plan.number == w.value;
        UpdateRowsAre(stored, row);
        var j: nat :| j < |stored| && stored[j] == row;
        PlannedAction(rows, d, j);
        assert SameAccount(rows, d, i, j);
      }
    }
  }

  /** When every planned update is written, planning the same file again finds no update
      exactly when the looked-up rows that name the same account agree on its number. */
  lemma ReplanIsQuietIff(rows: seq<CsvRow>, d: Directory, stored: seq<StoredRow>, accepted: seq<bool>)
    requires Stores(stored, Plan(rows, d))
    requires |accepted| == |UpdateRows(stored)| && (forall a :: a in accepted ==> a)
    ensures (forall p :: p in Plan(rows, AfterWrites(d, UpdateRows(stored), {}, accepted)) ==> p.action != Update)
      <==> Agree(rows, d)
  {
    var after := AfterWrites(d, UpdateRows(stored), {}, accepted);
    var again := Plan(rows, after);
    if Agree(rows, d) {
      forall p | p in again ensures p.action != Update {
        var i: nat :| i < |again| && again[i] == p;
        RowAfterWrites(rows, d, stored, accepted, i);
      }
    } else {
      var i: nat, j: nat :|
        i < |rows| && j < |rows| && SameAccount(rows, d, i, j) && rows[i].Number() != rows[j].Number();
      PlannedAction(rows, after, i);
      PlannedAction(rows, after, j);
      assert again[i] in again && again[j] in again;
    }
  }

  /** In particular when distinct emails name distinct accounts. */
  lemma DistinctAccountsAgree(rows: seq<CsvRow>, d: Directory)
    requires forall e, f :: e in d.resolve && f in d.resolve && d.resolve[e] == d.resolve[f] ==> e == f
    ensures Agree(rows, d)
  {
    forall i: nat, j: nat | i < |rows| && j < |rows| && SameAccount(rows, d, i, j)
      ensures rows[i].Number() == rows[j].Number()
    {
      assert rows[i].Email() == rows[j].Email();
    }
  }
}
