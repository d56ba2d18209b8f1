/**
 * The household dashboard of app.py: it coerces the amount column of the
 * shared spreadsheet, sums each spouse's contributions, measures the pair's
 * progress toward the joint monthly target, and checks whether the two loan
 * payments have been marked done.
 */
module Dashboard {
  import opened Wrappers
  import opened Text
  import opened Frame

  /** Monthly contribution targets, in won. */
  const TARGET_ME: int := 1580000
  const TARGET_WIFE: int := 1220000
  const TOTAL_TARGET: int := 2800000

  /** Values of the 주체 (actor) column. */
  const ME: string := "나"
  const WIFE: string := "와이프"
  /** Keyword of the 구분 (category) column that marks a contribution. */
  const CONTRIBUTION: string := "각출"
  /** Keywords of the 항목 (item) column for the two tracked loan payments. */
  const MORTGAGE: string := "주택담보대출"
  const CREDIT_LOAN: string := "신용대출"
  /** Value of the 상태 (status) column for a payment that has been made. */
  const DONE: string := "완료"

  /**
   * A spreadsheet row as read from the sheet. The amount cell is what pandas'
   * numeric conversion makes of it: `Some(n)` for a number, `None` for a
   * missing or non-numeric cell.
   */
  datatype RawRow = RawRow(actor: string, category: string, item: string, status: string, amount: Option<int>)

  // ---------------------------------------------------------------------------
  // Amount coercion (load_data)

  function Coerce(raw: RawRow): Row {
    Row(raw.actor, raw.category, raw.item, raw.status, raw.amount.GetOr(0))
  }

  /**
   * `to_numeric(errors='coerce').fillna(0)` on the amount column: every row is
   * kept in place with its text columns untouched; a readable amount keeps its
   * value and an unreadable or missing one becomes 0.
   */
  function LoadData(raw: seq<RawRow>): (rows: seq<Row>)
    ensures |rows| == |raw|
    ensures forall i :: 0 <= i < |raw| ==>
      && rows[i].actor == raw[i].actor
      && rows[i].category == raw[i].category
      && rows[i].item == raw[i].item
      && rows[i].status == raw[i].status
    ensures forall i :: 0 <= i < |raw| && raw[i].amount.Some? ==> rows[i].amount == raw[i].amount.value
    ensures forall i :: 0 <= i < |raw| && raw[i].amount.None? ==> rows[i].amount == 0
  {
    seq(|raw|, i requires 0 <= i < |raw| => Coerce(raw[i]))
  }

  /** The sheet a table of already numeric rows would have been read from. */
  function Uncoerced(rows: seq<Row>): seq<RawRow> {
    seq(|rows|, i requires 0 <= i < |rows| =>
      RawRow(rows[i].actor, rows[i].category, rows[i].item, rows[i].status, Some(rows[i].amount)))
  }

  /** Coercion changes nothing in a sheet whose amounts all read as numbers. */
  lemma LoadDataRoundTrip(rows: seq<Row>)
    ensures LoadData(Uncoerced(rows)) == rows
  {
  }

  /** Coercion works row by row: stacking two sheets stacks their coerced tables. */
  lemma LoadDataAppend(a: seq<RawRow>, b: seq<RawRow>)
    ensures LoadData(a + b) == LoadData(a) + LoadData(b)
  {
  }

  // ---------------------------------------------------------------------------
  // Contribution sums (actual_me, actual_wife, total_actual)

  /** `(df['주체'] == who) & (df['구분'].str.contains('각출'))`. */
  function ContributionMask(who: string): Mask {
    And(ActorIs(who), CategoryHas(CONTRIBUTION))
  }

  /** `df[ContributionMask(who)]['금액'].sum()`. */
  function ActualOf(rows: seq<Row>, who: string): int {
    MaskedSum(rows, ContributionMask(who))
  }

  function ActualMe(rows: seq<Row>): int {
    ActualOf(rows, ME)
  }

  function ActualWife(rows: seq<Row>): int {
    ActualOf(rows, WIFE)
  }

  function TotalActual(rows: seq<Row>): int {
    ActualMe(rows) + ActualWife(rows)
  }

  /** A row is a contribution of `who`: its actor is exactly `who` and its category contains 각출. */
  predicate IsContributionOf(r: Row, who: string) {
    r.actor == who && Contains(r.category, CONTRIBUTION)
  }

  /** Reference definition, row by row: the amounts of `who`'s contribution rows, added up. */
  function ContributionOf(rows: seq<Row>, who: string): int {
    if rows == [] then 0
    else (if IsContributionOf(rows[0], who) then rows[0].amount else 0) + ContributionOf(rows[1..], who)
  }

  /** Reference definition of the joint total: rows of either spouse whose category contains 각출. */
  function JointContribution(rows: seq<Row>): int {
    if rows == [] then 0
    else
      var r := rows[0];
      (if (r.actor == ME || r.actor == WIFE) && Contains(r.category, CONTRIBUTION) then r.amount else 0)
      + JointContribution(rows[1..])
  }

  /** The masked pandas sum is exactly the sum over `who`'s contribution rows. */
  lemma {:induction false} ActualIsContribution(rows: seq<Row>, who: string)
    ensures ActualOf(rows, who) == ContributionOf(rows, who)
  {
    if rows != [] {
      MaskedSumUnfold(rows, ContributionMask(who));
      ActualIsContribution(rows[1..], who);
    }
  }

  /** A row that is not `who`'s contribution, inserted anywhere, changes nothing in `who`'s sum. */
  lemma ContributionIgnoresRow(rows: seq<Row>, k: nat, x: Row, who: string)
    requires k <= |rows| && !IsContributionOf(x, who)
    ensures ActualOf(rows[..k] + [x] + rows[k..], who) == ActualOf(rows, who)
  {
    MaskedSumIgnoresRow(rows, k, x, ContributionMask(who));
  }

  /** The joint total sums each row of either spouse whose category contains 각출, once. */
  lemma {:induction false} TotalIsJointContribution(rows: seq<Row>)
    ensures TotalActual(rows) == JointContribution(rows)
  {
    if rows != [] {
      MaskedSumUnfold(rows, ContributionMask(ME));
      MaskedSumUnfold(rows, ContributionMask(WIFE));
      TotalIsJointContribution(rows[1..]);
    }
  }

  /**
   * A row of any other actor, or one whose category lacks 각출, inserted
   * anywhere, changes neither spouse's sum nor the total.
   */
  lemma TotalIgnoresRow(rows: seq<Row>, k: nat, x: Row)
    requires k <= |rows|
    requires (x.actor != ME && x.actor != WIFE) || !Contains(x.category, CONTRIBUTION)
    ensures ActualMe(rows[..k] + [x] + rows[k..]) == ActualMe(rows)
    ensures ActualWife(rows[..k] + [x] + rows[k..]) == ActualWife(rows)
    ensures TotalActual(rows[..k] + [x] + rows[k..]) == TotalActual(rows)
  {
    ContributionIgnoresRow(rows, k, x, ME);
    ContributionIgnoresRow(rows, k, x, WIFE);
  }

  /** The sums do not depend on the order of the sheet's rows. */
  lemma TotalIgnoresOrder(a: seq<Row>, b: seq<Row>)
    requires multiset(a) == multiset(b)
    ensures ActualMe(a) == ActualMe(b) && ActualWife(a) == ActualWife(b) && TotalActual(a) == TotalActual(b)
  {
    MaskedSumPermutation(a, b, ContributionMask(ME));
    MaskedSumPermutation(a, b, ContributionMask(WIFE));
  }

  /** The sums read only the actor, category and amount columns. */
  lemma SumsIgnoreItemAndStatus(a: seq<Row>, b: seq<Row>)
    requires |a| == |b|
    requires forall i :: 0 <= i < |a| ==>
      a[i].actor == b[i].actor && a[i].category == b[i].category && a[i].amount == b[i].amount
    ensures ActualMe(a) == ActualMe(b) && ActualWife(a) == ActualWife(b) && TotalActual(a) == TotalActual(b)
  {
    MaskedSumAgree(a, b, ContributionMask(ME));
    MaskedSumAgree(a, b, ContributionMask(WIFE));
  }

  // ---------------------------------------------------------------------------
  // Progress toward the joint target

  /** Python's `min(x, y)`: the first argument unless the second is smaller. */
  function Min(x: real, y: real): real {
    if y < x then y else x
  }

  /**
   * `min(total / target, 1.0) if target > 0 else 0`: the share of the target
   * reached, capped at 1. There is no lower cap: a negative total gives a
   * negative ratio.
   */
  function ProgressRatio(total: int, target: int): (ratio: real)
    ensures ratio <= 1.0
    ensures target <= 0 ==> ratio == 0.0
    ensures target > 0 ==> (ratio == 1.0 <==> total >= target)
    ensures target > 0 && total < target ==> ratio * target as real == total as real
    ensures total >= 0 ==> ratio >= 0.0
    ensures total < 0 && target > 0 ==> ratio < 0.0
  {
    if target > 0 then
      var share := total as real / target as real;
      assert share * target as real == total as real;
      assert share >= 1.0 <==> total >= target;
      Min(share, 1.0)
    else
      0.0
  }

  /** The ratio shown on the dashboard, against the fixed joint target. */
  function Progress(total: int): real {
    ProgressRatio(total, TOTAL_TARGET)
  }

  // ---------------------------------------------------------------------------
  // Loan checklist (loan_done, my_loan_done)

  /** `(df['항목'].str.contains(keyword)) & (df['상태'] == '완료')`. */
  function PaidMask(keyword: string): Mask {
    And(ItemHas(keyword), StatusIs(DONE))
  }

  /** The mortgage payment is done: some row's item contains 주택담보대출 and its status is exactly 완료. */
  function LoanDone(rows: seq<Row>): (done: bool)
    ensures done <==> exists i :: 0 <= i < |rows| && Contains(rows[i].item, MORTGAGE) && rows[i].status == DONE
    ensures rows == [] ==> !done
  {
    assert forall r :: Holds(PaidMask(MORTGAGE), r) <==> Contains(r.item, MORTGAGE) && r.status == DONE;
    AnyWhere(rows, PaidMask(MORTGAGE))
  }

  /** The credit-loan payment is done: some row's item contains 신용대출 and its status is exactly 완료. */
  function MyLoanDone(rows: seq<Row>): (done: bool)
    ensures done <==> exists i :: 0 <= i < |rows| && Contains(rows[i].item, CREDIT_LOAN) && rows[i].status == DONE
    ensures rows == [] ==> !done
  {
    assert forall r :: Holds(PaidMask(CREDIT_LOAN), r) <==> Contains(r.item, CREDIT_LOAN) && r.status == DONE;
    AnyWhere(rows, PaidMask(CREDIT_LOAN))
  }

  /** The flags read only the item and status columns. */
  lemma FlagsIgnoreOtherColumns(a: seq<Row>, b: seq<Row>)
    requires |a| == |b|
    requires forall i :: 0 <= i < |a| ==> a[i].item == b[i].item && a[i].status == b[i].status
    ensures LoanDone(a) == LoanDone(b) && MyLoanDone(a) == MyLoanDone(b)
  {
  }

  /** Neither loan keyword contains the other. */
  lemma LoanKeywordsDistinct()
    ensures !Contains(MORTGAGE, CREDIT_LOAN) && !Contains(CREDIT_LOAN, MORTGAGE)
  {
    if Contains(MORTGAGE, CREDIT_LOAN) {
      ContainsFirstChar(MORTGAGE, CREDIT_LOAN);
      assert false;
    }
    if Contains(CREDIT_LOAN, MORTGAGE) {
      ContainsFirstChar(CREDIT_LOAN, MORTGAGE);
      assert false;
    }
  }

  /** Either payment can be done while the other is not. */
  lemma FlagsAreIndependent()
    ensures exists rows :: LoanDone(rows) && !MyLoanDone(rows)
    ensures exists rows :: !LoanDone(rows) && MyLoanDone(rows)
  {
    LoanKeywordsDistinct();
    ContainsSelf(MORTGAGE);
    ContainsSelf(CREDIT_LOAN);
    var mortgage := [Row(ME, "", MORTGAGE, DONE, 0)];
    assert mortgage[0].item == MORTGAGE;
    assert LoanDone(mortgage) && !MyLoanDone(mortgage);
    var credit := [Row(ME, "", CREDIT_LOAN, DONE, 0)];
    assert credit[0].item == CREDIT_LOAN;
    assert !LoanDone(credit) && MyLoanDone(credit);
  }

  // ---------------------------------------------------------------------------
  // The whole dashboard

  /** Everything the dashboard derives from the sheet. */
  datatype Summary = Summary(
    actualMe: int, actualWife: int, totalActual: int,
    deltaMe: int, deltaWife: int,
    progress: real,
    loanDone: bool, myLoanDone: bool)

  /**
   * One run of the script after the fetch: coerce the amounts, then compute the
   * sums, the differences from each spouse's target, the capped progress and
   * the two flags.
   */
  function Summarize(raw: seq<RawRow>): (s: Summary)
    ensures s.actualMe == ContributionOf(LoadData(raw), ME)
    ensures s.actualWife == ContributionOf(LoadData(raw), WIFE)
    ensures s.totalActual == s.actualMe + s.actualWife
    ensures s.deltaMe == s.actualMe - TARGET_ME && s.deltaWife == s.actualWife - TARGET_WIFE
    ensures s.deltaMe >= 0 <==> s.actualMe >= TARGET_ME
    ensures s.deltaWife >= 0 <==> s.actualWife >= TARGET_WIFE
    ensures s.loanDone <==> exists i :: 0 <= i < |raw| && Contains(raw[i].item, MORTGAGE) && raw[i].status == DONE
    ensures s.myLoanDone <==> exists i :: 0 <= i < |raw| && Contains(raw[i].item, CREDIT_LOAN) && raw[i].status == DONE
    ensures s.progress <= 1.0
    ensures s.progress == 1.0 <==> s.deltaMe + s.deltaWife >= 0
    ensures s.deltaMe >= 0 && s.deltaWife >= 0 ==> s.progress == 1.0
    ensures s.progress < 1.0 ==> s.progress * TOTAL_TARGET as real == s.totalActual as real
    ensures raw == [] ==> s == Summary(0, 0, 0, -TARGET_ME, -TARGET_WIFE, 0.0, false, false)
  {
    var rows := LoadData(raw);
    ActualIsContribution(rows, ME);
    ActualIsContribution(rows, WIFE);
    var me, wife := ActualMe(rows), ActualWife(rows);
    Summary(me, wife, me + wife, me - TARGET_ME, wife - TARGET_WIFE,
            Progress(me + wife), LoanDone(rows), MyLoanDone(rows))
  }

  /** Full progress does not mean both spouses met their own targets: one can cover the other. */
  lemma FullProgressDespiteShortfall()
    ensures exists raw :: Summarize(raw).progress == 1.0 && Summarize(raw).deltaWife < 0
  {
    var raw := [RawRow(ME, CONTRIBUTION, "", "", Some(TOTAL_TARGET))];
    var rows := LoadData(raw);
    ContainsSelf(CONTRIBUTION);
    MaskedSumUnfold(rows, ContributionMask(ME));
    MaskedSumUnfold(rows, ContributionMask(WIFE));
    assert ActualMe(rows) == TOTAL_TARGET && ActualWife(rows) == 0;
    assert Summarize(raw).progress == 1.0 && Summarize(raw).deltaWife < 0;
  }

  /** Coercing a sheet with one more row inserted inserts that row's coerced form, and changes nothing else. */
  lemma LoadDataInsert(raw: seq<RawRow>, k: nat, x: RawRow)
    requires k <= |raw|
    ensures LoadData(raw[..k] + [x] + raw[k..]) == LoadData(raw)[..k] + [Coerce(x)] + LoadData(raw)[k..]
  {
  }

  /**
   * A row whose amount cannot be read is kept (the table grows by one and the
   * row sits where it was) but adds nothing to any sum.
   */
  lemma UnreadableAmountAddsNothing(raw: seq<RawRow>, k: nat, x: RawRow)
    requires k <= |raw| && x.amount.None?
    ensures var before, after := LoadData(raw), LoadData(raw[..k] + [x] + raw[k..]);
      && |after| == |before| + 1
      && after[k] == Row(x.actor, x.category, x.item, x.status, 0)
      && ActualMe(after) == ActualMe(before)
      && ActualWife(after) == ActualWife(before)
      && TotalActual(after) == TotalActual(before)
  {
    LoadDataInsert(raw, k, x);
    var before := LoadData(raw);
    MaskedSumIgnoresRow(before, k, Coerce(x), ContributionMask(ME));
    MaskedSumIgnoresRow(before, k, Coerce(x), ContributionMask(WIFE));
  }

  /** A paid-mortgage row whose amount cannot be read still marks the mortgage done. */
  lemma UnreadableAmountStillMarksLoan(raw: seq<RawRow>, x: RawRow)
    requires x.amount.None? && Contains(x.item, MORTGAGE) && x.status == DONE
    ensures Summarize(raw + [x]).loanDone
  {
    var rows := LoadData(raw + [x]);
    assert rows[|raw|].item == x.item && rows[|raw|].status == x.status;
  }
}
