/**
 * The six split types. `SharesOf` is a type's own guards and shares, `Wrap` the common final check, `Compute`
 * their composition; the methods are the loops that compute them. Shares are counted in units of 10^-scale.
 */
module ExpenseSplit {
  import opened Sequences
  import opened Decimals
  import opened RoundingEngine
  import opened OrderedMaps
  import Sorting

  type UserId = nat

  ghost predicate OneEntryPerUser(entries: seq<(UserId, Decimal)>) {
    forall i, j :: 0 <= i < j < |entries| ==> entries[i].0 != entries[j].0
  }

  /** A record of amounts by user. */
  type Entries = e: seq<(UserId, Decimal)> | OneEntryPerUser(e) witness []

  datatype Line = Line(amount: Decimal, amongEveryone: bool, participants: seq<UserId>)

  datatype SplitInput =
    | Equal(participants: seq<UserId>)
    | Exact(amounts: Entries)
    | Percentage(percentages: Entries)
    | Shares(shares: Entries)
    | Adjustment(fixed: Entries, remainder: seq<UserId>)
    | Itemized(everyone: seq<UserId>, lines: seq<Line>)

  datatype Share = Share(user: UserId, owed: int)

  datatype SplitError =
    | NoParticipants
    | AmountsDoNotSum
    | PercentagesDoNotSum
    | ShareNotPositive
    | SumOfSharesNotPositive
    | RemainderNotDisjoint
    | NoRemainderUsers
    | FixedExceedTotal
    | RemainderNegative
    | LineOutsideGroup
    | LineWithoutParticipants
    | LinesDoNotSum
    | InternalSumMismatch
    | Rounding(error: RoundingError)

  datatype SplitResult = SplitResult(shares: seq<Share>, sumOwed: int)

  const EPS: Decimal := 0.0001

  // ---------- Small pieces

  function SumD(entries: seq<(UserId, Decimal)>): Decimal {
    if entries == [] then 0.0 else SumD(entries[..|entries| - 1]) + entries[|entries| - 1].1
  }

  function SumLines(lines: seq<Line>): Decimal {
    if lines == [] then 0.0 else SumLines(lines[..|lines| - 1]) + lines[|lines| - 1].amount
  }

  function Users(entries: seq<(UserId, Decimal)>): (r: seq<UserId>)
    ensures |r| == |entries|
  {
    seq(|entries|, i requires 0 <= i < |entries| => entries[i].0)
  }

  function Amounts(entries: seq<(UserId, Decimal)>): (r: seq<Decimal>)
    ensures |r| == |entries|
  {
    seq(|entries|, i requires 0 <= i < |entries| => entries[i].1)
  }

  function Owed(shares: seq<Share>): (r: seq<int>)
    ensures |r| == |shares|
  {
    seq(|shares|, i requires 0 <= i < |shares| => shares[i].owed)
  }

  function SumOwed(shares: seq<Share>): int {
    Sum(Owed(shares))
  }

  ghost predicate DistinctUsers(shares: seq<Share>) {
    forall i, j :: 0 <= i < j < |shares| ==> shares[i].user != shares[j].user
  }

  /** Users paired with their parts; a user without a part owes nothing. */
  function Zip(users: seq<UserId>, parts: seq<int>): (r: seq<Share>)
    ensures |r| == |users|
  {
    seq(|users|, i requires 0 <= i < |users| => Share(users[i], if i < |parts| then parts[i] else 0))
  }

  /** Each entry's own amount, rounded by itself. */
  function RoundEach(entries: seq<(UserId, Decimal)>, scale: nat): (r: seq<Share>)
    ensures |r| == |entries|
  {
    seq(|entries|, i requires 0 <= i < |entries| => Share(entries[i].0, ToUnits(entries[i].1, scale)))
  }

  function ZipResult(users: seq<UserId>, parts: Result<seq<int>, RoundingError>): Result<seq<Share>, SplitError> {
    match parts
    case Ok(ps) => Ok(Zip(users, ps))
    case Err(e) => Err(Rounding(e))
  }

  // ---------- Guards and shares, type by type

  function EqualShares(participants: seq<UserId>, total: Decimal, scale: nat): Result<seq<Share>, SplitError> {
    var ids := Dedup(participants);
    if ids == [] then Err(NoParticipants)
    else ZipResult(ids, DistributeEqual(total, |ids|, scale))
  }

  function ExactShares(amounts: Entries, total: Decimal, scale: nat): Result<seq<Share>, SplitError> {
    if amounts == [] then Err(NoParticipants)
    else if AbsD(SumD(amounts) - total) > EPS then Err(AmountsDoNotSum)
    else Ok(RoundEach(amounts, scale))
  }

  function PercentageShares(percentages: Entries, total: Decimal, scale: nat): Result<seq<Share>, SplitError> {
    if percentages == [] then Err(NoParticipants)
    else if AbsD(SumD(percentages) - 100.0) > 0.01 then Err(PercentagesDoNotSum)
    else ZipResult(Users(percentages), DistributeMoney(total, Amounts(percentages), scale))
  }

  function WeightedShares(shares: Entries, total: Decimal, scale: nat): Result<seq<Share>, SplitError> {
    if shares == [] then Err(NoParticipants)
    else if exists i :: 0 <= i < |shares| && shares[i].1 <= 0.0 then Err(ShareNotPositive)
    else if SumD(shares) <= 0.0 then Err(SumOfSharesNotPositive)
    else ZipResult(Users(shares), DistributeMoney(total, Amounts(shares), scale))
  }

  function AdjustmentShares(fixed: Entries, remainder: seq<UserId>, total: Decimal, scale: nat)
    : Result<seq<Share>, SplitError>
  {
    if exists u :: u in remainder && u in Users(fixed) then Err(RemainderNotDisjoint)
    else if remainder == [] then Err(NoRemainderUsers)
    else if SumD(fixed) > total + EPS then Err(FixedExceedTotal)
    else if total - SumD(fixed) < 0.0 then Err(RemainderNegative)
    else
      var ids := Dedup(remainder);
      match DistributeEqual(total - SumD(fixed), |ids|, scale)
      case Err(e) => Err(Rounding(e))
      case Ok(parts) => Ok(RoundEach(fixed, scale) + Zip(ids, parts))
  }

  function LineTargets(everyone: seq<UserId>, line: Line): Result<seq<UserId>, SplitError> {
    if line.amongEveryone then
      if everyone == [] then Err(LineWithoutParticipants) else Ok(Dedup(everyone))
    else if exists u :: u in line.participants && u !in everyone then Err(LineOutsideGroup)
    else if line.participants == [] then Err(LineWithoutParticipants)
    else Ok(Dedup(line.participants))
  }

  /** One line's parts, keyed by the users it is split among. */
  function LineParts(everyone: seq<UserId>, line: Line, scale: nat): Result<OMap, SplitError> {
    match LineTargets(everyone, line)
    case Err(e) => Err(e)
    case Ok(targets) =>
      match DistributeEqual(line.amount, |targets|, scale)
      case Err(e) => Err(Rounding(e))
      case Ok(parts) => Ok(AsMap(targets, parts))
  }

  function AsMap(users: seq<UserId>, parts: seq<int>): (r: OMap)
    ensures |r| == |users|
  {
    seq(|users|, i requires 0 <= i < |users| => (users[i], if i < |parts| then parts[i] else 0))
  }

  function WithLine(acc: OMap, everyone: seq<UserId>, line: Line, scale: nat): Result<OMap, SplitError> {
    match LineParts(everyone, line, scale)
    case Err(e) => Err(e)
    case Ok(parts) => Ok(AddAll(acc, parts))
  }

  function AccumulateLines(everyone: seq<UserId>, lines: seq<Line>, scale: nat): Result<OMap, SplitError> {
    if lines == [] then Ok([])
    else
      match AccumulateLines(everyone, lines[..|lines| - 1], scale)
      case Err(e) => Err(e)
      case Ok(acc) => WithLine(acc, everyone, lines[|lines| - 1], scale)
  }

  function ById(): ((UserId, int), (UserId, int)) -> bool {
    (a: (UserId, int), b: (UserId, int)) => a.0 <= b.0
  }

  function AsShares(m: OMap): (r: seq<Share>)
    ensures |r| == |m|
  {
    seq(|m|, i requires 0 <= i < |m| => Share(m[i].0, m[i].1))
  }

  function ItemizedShares(everyone: seq<UserId>, lines: seq<Line>, total: Decimal, scale: nat)
    : Result<seq<Share>, SplitError>
  {
    if everyone == [] then Err(NoParticipants)
    else
      match AccumulateLines(everyone, lines, scale)
      case Err(e) => Err(e)
      case Ok(acc) =>
        if AbsD(SumLines(lines) - total) > EPS then Err(LinesDoNotSum)
        else Ok(AsShares(Sorting.Sort(ById(), acc)))
  }

  function SharesOf(input: SplitInput, total: Decimal, scale: nat): Result<seq<Share>, SplitError> {
    match input
    case Equal(participants) => EqualShares(participants, total, scale)
    case Exact(amounts) => ExactShares(amounts, total, scale)
    case Percentage(percentages) => PercentageShares(percentages, total, scale)
    case Shares(shares) => WeightedShares(shares, total, scale)
    case Adjustment(fixed, remainder) => AdjustmentShares(fixed, remainder, total, scale)
    case Itemized(everyone, lines) => ItemizedShares(everyone, lines, total, scale)
  }

  function Wrap(shares: seq<Share>, total: Decimal, scale: nat): Result<SplitResult, SplitError> {
    if AbsD(FromUnits(SumOwed(shares), scale) - total) > EPS then Err(InternalSumMismatch)
    else
      match ToMinorUnits(total, scale)
      case Err(e) => Err(Rounding(e))
      case Ok(_) => Ok(SplitResult(shares, SumOwed(shares)))
  }

  function Compute(input: SplitInput, total: Decimal, scale: nat): Result<SplitResult, SplitError> {
    match SharesOf(input, total, scale)
    case Err(e) => Err(e)
    case Ok(shares) => Wrap(shares, total, scale)
  }

  // ---------- The loops

  method TotalOf(entries: seq<(UserId, Decimal)>) returns (sum: Decimal)
    ensures sum == SumD(entries)
  {
    sum := 0.0;
    for k := 0 to |entries|
      invariant sum == SumD(entries[..k])
    {
      assert entries[..k + 1][..k] == entries[..k];
      sum := sum + entries[k].1;
    }
    assert entries[..|entries|] == entries;
  }

  method SplitExact(amounts: Entries, total: Decimal, scale: nat) returns (r: Result<seq<Share>, SplitError>)
    ensures r == ExactShares(amounts, total, scale)
  {
    if amounts == [] {
      return Err(NoParticipants);
    }
    var sum := TotalOf(amounts);
    if !(AbsD(sum - total) <= EPS) {
      return Err(AmountsDoNotSum);
    }
    return Ok(RoundEach(amounts, scale));
  }

  method SplitPercentage(percentages: Entries, total: Decimal, scale: nat) returns (r: Result<seq<Share>, SplitError>)
    ensures r == PercentageShares(percentages, total, scale)
  {
    if percentages == [] {
      return Err(NoParticipants);
    }
    var sum := TotalOf(percentages);
    if !(AbsD(sum - 100.0) <= 0.01) {
      return Err(PercentagesDoNotSum);
    }
    return ZipResult(Users(percentages), DistributeMoney(total, Amounts(percentages), scale));
  }

  method SplitShares(shares: Entries, total: Decimal, scale: nat) returns (r: Result<seq<Share>, SplitError>)
    ensures r == WeightedShares(shares, total, scale)
  {
    if shares == [] {
      return Err(NoParticipants);
    }
    var sum := 0.0;
    for k := 0 to |shares|
      invariant sum == SumD(shares[..k])
      invariant forall i :: 0 <= i < k ==> shares[i].1 > 0.0
    {
      if shares[k].1 <= 0.0 {
        return Err(ShareNotPositive);
      }
      assert shares[..k + 1][..k] == shares[..k];
      sum := sum + shares[k].1;
    }
    assert shares[..|shares|] == shares;
    if sum <= 0.0 {
      return Err(SumOfSharesNotPositive);
    }
    return ZipResult(Users(shares), DistributeMoney(total, Amounts(shares), scale));
  }

  method SplitAdjustment(fixed: Entries, remainder: seq<UserId>, total: Decimal, scale: nat)
    returns (r: Result<seq<Share>, SplitError>)
    ensures r == AdjustmentShares(fixed, remainder, total, scale)
  {
    var fixedIds := Users(fixed);
    for k := 0 to |remainder|
      invariant forall i :: 0 <= i < k ==> remainder[i] !in fixedIds
    {
      if remainder[k] in fixedIds {
        return Err(RemainderNotDisjoint);
      }
    }
    if remainder == [] {
      return Err(NoRemainderUsers);
    }
    var fixedSum := TotalOf(fixed);
    if fixedSum > total + EPS {
      return Err(FixedExceedTotal);
    }
    var remainderAmount := total - fixedSum;
    if remainderAmount < 0.0 {
      return Err(RemainderNegative);
    }
    var ids := Dedup(remainder);
    var parts := DistributeEqual(remainderAmount, |ids|, scale);
    if parts.Err? {
      return Err(Rounding(parts.error));
    }
    var owed := OwedByFixedThenRemainder(fixed, ids, parts.value, scale);
    return Ok(owed);
  }

  /** No key repeats, so each write to the owed map appends an entry. */
  method OwedByFixedThenRemainder(fixed: Entries, ids: seq<UserId>, parts: seq<int>, scale: nat)
    returns (owed: seq<Share>)
    ensures owed == RoundEach(fixed, scale) + Zip(ids, parts)
  {
    owed := [];
    for k := 0 to |fixed|
      invariant owed == RoundEach(fixed, scale)[..k]
    {
      owed := owed + [Share(fixed[k].0, ToUnits(fixed[k].1, scale))];
    }
    for k := 0 to |ids|
      invariant owed == RoundEach(fixed, scale) + Zip(ids, parts)[..k]
    {
      owed := owed + [Share(ids[k], if k < |parts| then parts[k] else 0)];
    }
  }

  method TargetsOf(everyone: seq<UserId>, line: Line) returns (r: Result<seq<UserId>, SplitError>)
    ensures r == LineTargets(everyone, line)
  {
    var targets := Dedup(everyone);
    if !line.amongEveryone {
      targets := Dedup(line.participants);
      for i := 0 to |targets|
        invariant forall j :: 0 <= j < i ==> targets[j] in everyone
      {
        if targets[i] !in everyone {
          assert targets[i] in line.participants;
          return Err(LineOutsideGroup);
        }
      }
      assert forall u :: u in line.participants ==> u in targets;
      DedupEmpty(line.participants);
    } else {
      DedupEmpty(everyone);
    }
    return if |targets| == 0 then Err(LineWithoutParticipants) else Ok(targets);
  }

  lemma DedupEmpty(ids: seq<UserId>)
    ensures Dedup(ids) == [] <==> ids == []
  {
    if ids != [] { assert ids[0] in Dedup(ids); }
  }

  method AddParts(acc: OMap, targets: seq<UserId>, split: seq<int>) returns (owed: OMap)
    ensures owed == AddAll(acc, AsMap(targets, split))
  {
    owed := acc;
    ghost var parts := AsMap(targets, split);
    for i := 0 to |targets|
      invariant owed == AddAll(acc, parts[..i])
    {
      assert parts[..i + 1][..i] == parts[..i];
      owed := Put(owed, targets[i], Get(owed, targets[i]) + (if i < |split| then split[i] else 0));
    }
    assert parts[..|parts|] == parts;
  }

  method AddLine(acc: OMap, everyone: seq<UserId>, line: Line, scale: nat) returns (r: Result<OMap, SplitError>)
    ensures r == WithLine(acc, everyone, line, scale)
  {
    var targets := TargetsOf(everyone, line);
    if targets.Err? {
      return Err(targets.error);
    }
    var split := DistributeEqual(line.amount, |targets.value|, scale);
    if split.Err? {
      return Err(Rounding(split.error));
    }
    var owed := AddParts(acc, targets.value, split.value);
    return Ok(owed);
  }

  method SplitItemized(everyone: seq<UserId>, lines: seq<Line>, total: Decimal, scale: nat)
    returns (r: Result<seq<Share>, SplitError>)
    ensures r == ItemizedShares(everyone, lines, total, scale)
  {
    if everyone == [] {
      return Err(NoParticipants);
    }
    var linesSum := 0.0;
    var acc: OMap := [];
    for k := 0 to |lines|
      invariant linesSum == SumLines(lines[..k])
      invariant AccumulateLines(everyone, lines[..k], scale) == Ok(acc)
    {
      OneMoreLine(everyone, lines, k, scale);
      linesSum := linesSum + lines[k].amount;
      var added := AddLine(acc, everyone, lines[k], scale);
      if added.Err? {
        FirstBadLine(everyone, lines, k + 1, scale);
        return Err(added.error);
      }
      acc := added.value;
    }
    assert lines[..|lines|] == lines;
    if !(AbsD(linesSum - total) <= EPS) {
      return Err(LinesDoNotSum);
    }
    return Ok(AsShares(Sorting.Sort(ById(), acc)));
  }

  lemma OneMoreLine(everyone: seq<UserId>, lines: seq<Line>, k: nat, scale: nat)
    requires k < |lines|
    ensures SumLines(lines[..k + 1]) == SumLines(lines[..k]) + lines[k].amount
    ensures var before, after := AccumulateLines(everyone, lines[..k], scale),
                                 AccumulateLines(everyone, lines[..k + 1], scale);
      after == if before.Err? then before else WithLine(before.value, everyone, lines[k], scale)
  {
    assert lines[..k + 1][..k] == lines[..k];
  }

  lemma {:induction false} FirstBadLine(everyone: seq<UserId>, lines: seq<Line>, k: nat, scale: nat)
    requires k <= |lines| && AccumulateLines(everyone, lines[..k], scale).Err?
    ensures AccumulateLines(everyone, lines, scale) == AccumulateLines(everyone, lines[..k], scale)
    decreases |lines| - k
  {
    if k < |lines| {
      OneMoreLine(everyone, lines, k, scale);
      FirstBadLine(everyone, lines, k + 1, scale);
    } else {
      assert lines[..k] == lines;
    }
  }

  method WrapShares(shares: seq<Share>, total: Decimal, scale: nat) returns (r: Result<SplitResult, SplitError>)
    ensures r == Wrap(shares, total, scale)
  {
    var sum := 0;
    for k := 0 to |shares|
      invariant sum == Sum(Owed(shares)[..k])
    {
      assert Owed(shares)[..k + 1] == Owed(shares)[..k] + [shares[k].owed];
      SumAppend(Owed(shares)[..k], [shares[k].owed]);
      sum := sum + shares[k].owed;
    }
    assert Owed(shares)[..|shares|] == Owed(shares);
    if !(AbsD(FromUnits(sum, scale) - total) <= EPS) {
      return Err(InternalSumMismatch);
    }
    var checked := ToMinorUnits(total, scale);
    if checked.Err? {
      return Err(Rounding(checked.error));
    }
    return Ok(SplitResult(shares, sum));
  }

  method ComputeSplit(input: SplitInput, total: Decimal, scale: nat) returns (r: Result<SplitResult, SplitError>)
    ensures r == Compute(input, total, scale)
    ensures r.Ok? && scale <= 3 ==> DistinctUsers(r.value.shares) && SumOwed(r.value.shares) == ToUnits(total, scale)
  {
    if Compute(input, total, scale).Ok? && scale <= 3 {
      ComputedSharesSumToTotal(input, total, scale);
    }
    var shares: Result<seq<Share>, SplitError>;
    match input {
      case Equal(participants) => shares := EqualShares(participants, total, scale);
      case Exact(amounts) => shares := SplitExact(amounts, total, scale);
      case Percentage(percentages) => shares := SplitPercentage(percentages, total, scale);
      case Shares(weights) => shares := SplitShares(weights, total, scale);
      case Adjustment(fixed, remainder) => shares := SplitAdjustment(fixed, remainder, total, scale);
      case Itemized(everyone, lines) => shares := SplitItemized(everyone, lines, total, scale);
    }
    if shares.Err? {
      return Err(shares.error);
    }
    r := WrapShares(shares.value, total, scale);
  }

  // ---------- Sums of shares

  lemma {:induction false} ZipSum(users: seq<UserId>, parts: seq<int>)
    requires |parts| == |users|
    ensures Owed(Zip(users, parts)) == parts && SumOwed(Zip(users, parts)) == Sum(parts)
  {
    assert Owed(Zip(users, parts)) == parts;
  }

  lemma RoundEachSum(entries: seq<(UserId, Decimal)>, scale: nat)
    ensures SumOwed(RoundEach(entries, scale)) == Sum(UnitsOfAll(Amounts(entries), scale))
  {
    assert Owed(RoundEach(entries, scale)) == UnitsOfAll(Amounts(entries), scale);
  }

  lemma SumOwedAppend(a: seq<Share>, b: seq<Share>)
    ensures SumOwed(a + b) == SumOwed(a) + SumOwed(b)
  {
    assert Owed(a + b) == Owed(a) + Owed(b);
    SumAppend(Owed(a), Owed(b));
  }

  lemma {:induction false} InsertKeepsKeys(x: (UserId, int), m: OMap)
    requires OneEntryPerKey(m) && forall i :: 0 <= i < |m| ==> m[i].0 != x.0
    ensures OneEntryPerKey(Sorting.Insert(ById(), x, m))
    ensures forall i :: 0 <= i < |Sorting.Insert(ById(), x, m)| ==> Sorting.Insert(ById(), x, m)[i] in [x] + m
  {
    if m != [] && !ById()(x, m[0]) {
      var rest := Sorting.Insert(ById(), x, m[1..]);
      InsertKeepsKeys(x, m[1..]);
      forall i | 0 <= i < |rest| ensures rest[i] in [x] + m && rest[i].0 != m[0].0 {
        assert rest[i] in [x] + m[1..];
      }
    }
  }

  lemma {:induction false} InsertKeepsSum(x: (UserId, int), m: OMap)
    ensures SumOwed(AsShares(Sorting.Insert(ById(), x, m))) == x.1 + SumOwed(AsShares(m))
  {
    SumOfHead([x] + m);
    assert ([x] + m)[1..] == m;
    if m != [] && !ById()(x, m[0]) {
      var rest := Sorting.Insert(ById(), x, m[1..]);
      InsertKeepsSum(x, m[1..]);
      SumOfHead(m);
      SumOfHead([m[0]] + rest);
      assert ([m[0]] + rest)[1..] == rest;
    }
  }

  lemma SumOfHead(m: OMap)
    requires m != []
    ensures SumOwed(AsShares(m)) == m[0].1 + SumOwed(AsShares(m[1..]))
  {
    assert Owed(AsShares(m)) == [m[0].1] + Owed(AsShares(m[1..]));
  }

  lemma {:induction false} SortKeepsMap(m: OMap)
    requires OneEntryPerKey(m)
    ensures OneEntryPerKey(Sorting.Sort(ById(), m))
    ensures SumOwed(AsShares(Sorting.Sort(ById(), m))) == SumOwed(AsShares(m))
  {
    if m != [] {
      var rest := Sorting.Sort(ById(), m[1..]);
      SortKeepsMap(m[1..]);
      Sorting.SortIsPermutation(ById(), m[1..]);
      forall i | 0 <= i < |rest| ensures rest[i].0 != m[0].0 {
        assert rest[i] in m[1..];
      }
      InsertKeepsKeys(m[0], rest);
      InsertKeepsSum(m[0], rest);
      SumOfHead(m);
    }
  }

  lemma {:induction false} SumOfMapShares(m: OMap)
    ensures SumOwed(AsShares(m)) == SumValues(m)
  {
    if m != [] {
      var n := |m| - 1;
      assert Owed(AsShares(m)) == Owed(AsShares(m[..n])) + [m[n].1];
      SumAppend(Owed(AsShares(m[..n])), [m[n].1]);
      SumOfMapShares(m[..n]);
    }
  }

  // ---------- Itemized lines

  /** What user u owes for one line. */
  function LineOwed(everyone: seq<UserId>, line: Line, u: UserId, scale: nat): int {
    match LineParts(everyone, line, scale)
    case Err(_) => 0
    case Ok(parts) => SumAt(parts, u)
  }

  function LinesOwed(everyone: seq<UserId>, lines: seq<Line>, u: UserId, scale: nat): int {
    if lines == [] then 0
    else LinesOwed(everyone, lines[..|lines| - 1], u, scale) + LineOwed(everyone, lines[|lines| - 1], u, scale)
  }

  /** Sum of the line amounts, each rounded by itself. */
  function LineUnits(lines: seq<Line>, scale: nat): int {
    if lines == [] then 0
    else LineUnits(lines[..|lines| - 1], scale) + ToUnits(lines[|lines| - 1].amount, scale)
  }

  lemma LinePartsSum(everyone: seq<UserId>, line: Line, scale: nat)
    requires LineParts(everyone, line, scale).Ok?
    ensures SumValues(LineParts(everyone, line, scale).value) == ToUnits(line.amount, scale)
  {
    var targets := LineTargets(everyone, line).value;
    var parts := DistributeEqual(line.amount, |targets|, scale).value;
    MoneyPartsSum(line.amount, seq(|targets|, _ => 1.0), scale);
    assert Owed(AsShares(AsMap(targets, parts))) == parts;
    SumOfMapShares(AsMap(targets, parts));
  }

  /** Each user owes exactly the sum of their parts of the lines, and all of them together the lines' amounts. */
  lemma {:induction false} AccumulatedIsSumOfLines(everyone: seq<UserId>, lines: seq<Line>, u: UserId, scale: nat)
    requires AccumulateLines(everyone, lines, scale).Ok?
    ensures var acc := AccumulateLines(everyone, lines, scale).value;
      && OneEntryPerKey(acc)
      && Get(acc, u) == LinesOwed(everyone, lines, u, scale)
      && SumValues(acc) == LineUnits(lines, scale)
  {
    if lines != [] {
      var front, last := lines[..|lines| - 1], lines[|lines| - 1];
      AccumulatedIsSumOfLines(everyone, front, u, scale);
      LinePartsSum(everyone, last, scale);
      AddAllMeans(AccumulateLines(everyone, front, scale).value, LineParts(everyone, last, scale).value, u);
    }
  }

  // ---------- Whatever compute returns adds up

  lemma FixedAndRemainderAreDistinct(fixed: Entries, remainder: seq<UserId>, parts: seq<int>, scale: nat)
    requires !exists u :: u in remainder && u in Users(fixed)
    ensures DistinctUsers(RoundEach(fixed, scale) + Zip(Dedup(remainder), parts))
  {
    var ids := Dedup(remainder);
    var shares := RoundEach(fixed, scale) + Zip(ids, parts);
    forall i, j | 0 <= i < j < |shares| ensures shares[i].user != shares[j].user {
      if i < |fixed| <= j {
        assert shares[i].user == Users(fixed)[i];
        assert shares[j].user == ids[j - |fixed|] && ids[j - |fixed|] in remainder;
      }
    }
  }

  lemma ZipIsDistinct(users: seq<UserId>, parts: seq<int>)
    requires Distinct(users)
    ensures DistinctUsers(Zip(users, parts))
  {
  }

  lemma ItemizedIsDistinct(everyone: seq<UserId>, lines: seq<Line>, total: Decimal, scale: nat)
    requires ItemizedShares(everyone, lines, total, scale).Ok?
    ensures DistinctUsers(ItemizedShares(everyone, lines, total, scale).value)
  {
    AccumulatedIsSumOfLines(everyone, lines, 0, scale);
    SortKeepsMap(AccumulateLines(everyone, lines, scale).value);
  }

  lemma AdjustmentIsDistinct(fixed: Entries, remainder: seq<UserId>, total: Decimal, scale: nat)
    requires AdjustmentShares(fixed, remainder, total, scale).Ok?
    ensures DistinctUsers(AdjustmentShares(fixed, remainder, total, scale).value)
  {
    FixedAndRemainderAreDistinct(fixed, remainder,
      DistributeEqual(total - SumD(fixed), |Dedup(remainder)|, scale).value, scale);
  }

  lemma SharesHaveDistinctUsers(input: SplitInput, total: Decimal, scale: nat)
    requires SharesOf(input, total, scale).Ok?
    ensures DistinctUsers(SharesOf(input, total, scale).value)
  {
    match input {
      case Equal(participants) =>
        var ids := Dedup(participants);
        ZipIsDistinct(ids, DistributeEqual(total, |ids|, scale).value);
      case Exact(amounts) =>
      case Percentage(percentages) =>
        ZipIsDistinct(Users(percentages), DistributeMoney(total, Amounts(percentages), scale).value);
      case Shares(shares) =>
        ZipIsDistinct(Users(shares), DistributeMoney(total, Amounts(shares), scale).value);
      case Adjustment(fixed, remainder) => AdjustmentIsDistinct(fixed, remainder, total, scale);
      case Itemized(everyone, lines) =>
        ItemizedIsDistinct(everyone, lines, total, scale);
    }
  }

  lemma ToleranceBelowHalfUnit(scale: nat)
    requires scale <= 3
    ensures Scaled(EPS, scale) < 0.5
  {
    assert Scaled(EPS, 0) == 0.0001 && Scaled(EPS, 1) == 0.001 && Scaled(EPS, 2) == 0.01;
  }

  /**
   * Every split type: what `compute` returns lists each user once, and the shares sum to the total in minor
   * units, including the types that round share by share.
   */
  lemma ComputedSharesSumToTotal(input: SplitInput, total: Decimal, scale: nat)
    requires Compute(input, total, scale).Ok? && scale <= 3
    ensures var r := Compute(input, total, scale).value;
      DistinctUsers(r.shares) && SumOwed(r.shares) == r.sumOwed == ToUnits(total, scale)
  {
    SharesHaveDistinctUsers(input, total, scale);
    ToleranceBelowHalfUnit(scale);
    WithinGapIsRounded(SumOwed(SharesOf(input, total, scale).value), total, EPS, scale);
  }

  /** What the final check lets through: one share per user, summing to within the tolerance of the total. */
  lemma ComputedSharesWithinTolerance(input: SplitInput, total: Decimal, scale: nat)
    requires Compute(input, total, scale).Ok?
    ensures var r := Compute(input, total, scale).value;
      DistinctUsers(r.shares) && AbsD(FromUnits(SumOwed(r.shares), scale) - total) <= EPS
  {
    SharesHaveDistinctUsers(input, total, scale);
  }

  /** Two halves of a unit. */
  function TwoHalves(u: UserId, v: UserId, scale: nat): Entries
    requires u != v
  {
    [(u, Unscaled(0.5, scale)), (v, Unscaled(0.5, scale))]
  }

  lemma {:induction false} UnscaledFacts(x: Decimal, y: Decimal, scale: nat)
    ensures Unscaled(x + y, scale) == Unscaled(x, scale) + Unscaled(y, scale)
    ensures Scaled(Unscaled(x, scale), scale) == x
  {
    ScaledUnscaled(x, scale);
    if scale > 0 {
      UnscaledFacts(x, y, scale - 1);
    }
  }

  /** From scale 4 on the tolerance is at least a whole unit. */
  lemma {:induction false} UnitWithinTolerance(scale: nat)
    requires scale >= 4
    ensures 0.0 < Unscaled(1.0, scale) <= EPS
  {
    if scale == 4 {
      assert Unscaled(1.0, 2) == 0.01;
    } else {
      UnitWithinTolerance(scale - 1);
    }
  }

  /** From scale 4 on, two half units split exactly: both round up, and the shares exceed the total by a unit. */
  lemma TwoHalvesMissTheTotal(u: UserId, v: UserId, scale: nat)
    requires u != v && 4 <= scale && ScaleOk(scale)
    ensures var total := FromUnits(1, scale);
      && Compute(Exact(TwoHalves(u, v, scale)), total, scale) == Ok(SplitResult([Share(u, 1), Share(v, 1)], 2))
      && ToUnits(total, scale) == 1
  {
    var amounts, total, half := TwoHalves(u, v, scale), FromUnits(1, scale), Unscaled(0.5, scale);
    var first: seq<(UserId, Decimal)> := [(u, half)];
    assert amounts[..|amounts| - 1] == first && SumD(first) == half;
    UnscaledFacts(0.5, 0.5, scale);
    UnscaledFacts(1.0, 1.0, scale);
    UnitWithinTolerance(scale);
    assert FromUnits(2, scale) == total + total;
    HalfUpNearest(0.5, 1);
    var shares := RoundEach(amounts, scale);
    assert shares == [Share(u, 1), Share(v, 1)];
    assert Owed(shares) == [1, 1];
    assert Sum([1]) == 1 && [1, 1][1..] == [1];
    UnitsRoundTrip(1, scale);
  }

  /** Whatever is returned at this scale sums to the total in minor units. */
  ghost predicate AlwaysExact(scale: nat) {
    forall input, total :: Compute(input, total, scale).Ok? ==>
      SumOwed(Compute(input, total, scale).value.shares) == ToUnits(total, scale)
  }

  /** The final check guarantees exact sums at scales up to 3, and at no other scale that is allowed. */
  lemma AlwaysExactIffScaleAtMostThree(scale: nat)
    requires ScaleOk(scale)
    ensures AlwaysExact(scale) <==> scale <= 3
  {
    if scale <= 3 {
      forall input, total | Compute(input, total, scale).Ok?
        ensures SumOwed(Compute(input, total, scale).value.shares) == ToUnits(total, scale)
      {
        ComputedSharesSumToTotal(input, total, scale);
      }
    } else {
      TwoHalvesMissTheTotal(0, 1, scale);
      var missed := Compute(Exact(TwoHalves(0, 1, scale)), FromUnits(1, scale), scale).value;
      assert Owed(missed.shares) == [1, 1];
      assert SumOwed(missed.shares) == 2 by { assert [1, 1][1..] == [1] && Sum([1]) == 1; }
    }
  }

  // ---------- When compute succeeds, for any input at all

  /** What the shares of an input sum to, whatever its decimals: each type rounds its own parts. */
  function RoundedSum(input: SplitInput, total: Decimal, scale: nat): int {
    match input
    case Equal(_) => ToUnits(total, scale)
    case Exact(amounts) => Sum(UnitsOfAll(Amounts(amounts), scale))
    case Percentage(_) => ToUnits(total, scale)
    case Shares(_) => ToUnits(total, scale)
    case Adjustment(fixed, _) =>
      Sum(UnitsOfAll(Amounts(fixed), scale)) + ToUnits(total - SumD(fixed), scale)
    case Itemized(_, lines) => LineUnits(lines, scale)
  }

  lemma SharesSumToRoundedSum(input: SplitInput, total: Decimal, scale: nat)
    requires SharesOf(input, total, scale).Ok?
    ensures SumOwed(SharesOf(input, total, scale).value) == RoundedSum(input, total, scale)
  {
    match input {
      case Equal(participants) => EqualPartsSum(Dedup(participants), total, scale);
      case Exact(amounts) => RoundEachSum(amounts, scale);
      case Percentage(percentages) => WeightedPartsSum(percentages, total, scale);
      case Shares(shares) => WeightedPartsSum(shares, total, scale);
      case Adjustment(fixed, remainder) => AdjustmentSum(fixed, remainder, total, scale);
      case Itemized(everyone, lines) => ItemizedSum(everyone, lines, total, scale);
    }
  }

  lemma AdjustmentSum(fixed: Entries, remainder: seq<UserId>, total: Decimal, scale: nat)
    requires AdjustmentShares(fixed, remainder, total, scale).Ok?
    ensures SumOwed(AdjustmentShares(fixed, remainder, total, scale).value) ==
      RoundedSum(Adjustment(fixed, remainder), total, scale)
  {
    var ids, rest := Dedup(remainder), total - SumD(fixed);
    EqualPartsSum(ids, rest, scale);
    RoundEachSum(fixed, scale);
    SumOwedAppend(RoundEach(fixed, scale), Zip(ids, DistributeEqual(rest, |ids|, scale).value));
  }

  lemma ItemizedSum(everyone: seq<UserId>, lines: seq<Line>, total: Decimal, scale: nat)
    requires ItemizedShares(everyone, lines, total, scale).Ok?
    ensures SumOwed(ItemizedShares(everyone, lines, total, scale).value) == LineUnits(lines, scale)
  {
    var acc := AccumulateLines(everyone, lines, scale).value;
    AccumulatedIsSumOfLines(everyone, lines, 0, scale);
    SortKeepsMap(acc);
    SumOfMapShares(acc);
  }

  lemma EqualPartsSum(ids: seq<UserId>, total: Decimal, scale: nat)
    requires DistributeEqual(total, |ids|, scale).Ok?
    ensures SumOwed(Zip(ids, DistributeEqual(total, |ids|, scale).value)) == ToUnits(total, scale)
  {
    MoneyPartsSum(total, seq(|ids|, _ => 1.0), scale);
    ZipSum(ids, DistributeEqual(total, |ids|, scale).value);
  }

  lemma WeightedPartsSum(weights: Entries, total: Decimal, scale: nat)
    requires weights != [] && DistributeMoney(total, Amounts(weights), scale).Ok?
    ensures SumOwed(Zip(Users(weights), DistributeMoney(total, Amounts(weights), scale).value)) == ToUnits(total, scale)
  {
    MoneyPartsSum(total, Amounts(weights), scale);
    ZipSum(Users(weights), DistributeMoney(total, Amounts(weights), scale).value);
  }

  /** The checks a split type makes on its own input. */
  ghost predicate OwnGuards(input: SplitInput, total: Decimal) {
    match input
    case Equal(participants) => participants != []
    case Exact(amounts) => amounts != [] && AbsD(SumD(amounts) - total) <= EPS
    case Percentage(percentages) => percentages != [] && AbsD(SumD(percentages) - 100.0) <= 0.01
    case Shares(shares) => shares != [] && forall i :: 0 <= i < |shares| ==> shares[i].1 > 0.0
    case Adjustment(fixed, remainder) =>
      remainder != [] && SumD(fixed) <= total && forall u :: u in remainder ==> u !in Users(fixed)
    case Itemized(everyone, lines) =>
      && everyone != [] && AbsD(SumLines(lines) - total) <= EPS
      && forall k :: 0 <= k < |lines| ==> LineTargets(everyone, lines[k]).Ok?
  }

  /** Weights, and a total to distribute, that the rounding engine accepts. */
  ghost predicate Weighs(weights: Entries, total: Decimal, scale: nat) {
    && ToUnits(total, scale) >= 0
    && Sum(UnitsOfAll(Amounts(weights), scale)) > 0
    && forall i :: 0 <= i < |weights| ==> ToUnits(weights[i].1, scale) >= 0
  }

  /** Everything that is checked before the final sum, on the raw input. */
  ghost predicate RawGuards(input: SplitInput, total: Decimal, scale: nat) {
    && OwnGuards(input, total)
    && match input
       case Equal(_) => ToUnits(total, scale) >= 0
       case Exact(_) => true
       case Percentage(percentages) => Weighs(percentages, total, scale)
       case Shares(shares) => Weighs(shares, total, scale)
       case Adjustment(_, _) => true
       case Itemized(_, lines) => forall k :: 0 <= k < |lines| ==> ToUnits(lines[k].amount, scale) >= 0
  }

  lemma WeighsIff(weights: Entries, total: Decimal, scale: nat)
    requires ScaleOk(scale) && weights != []
    ensures DistributeMoney(total, Amounts(weights), scale).Ok? <==> Weighs(weights, total, scale)
  {
    var units := UnitsOfAll(Amounts(weights), scale);
    if forall i :: 0 <= i < |units| ==> units[i] >= 0 {
      NonNegativeWeightsNeverFail(ToUnits(total, scale), units);
    }
    assert forall i :: 0 <= i < |units| ==> units[i] == ToUnits(weights[i].1, scale);
  }

  ghost predicate LinesOk(everyone: seq<UserId>, lines: seq<Line>, scale: nat) {
    forall k :: 0 <= k < |lines| ==> LineTargets(everyone, lines[k]).Ok? && ToUnits(lines[k].amount, scale) >= 0
  }

  lemma OneMoreLineOk(everyone: seq<UserId>, lines: seq<Line>, line: Line, scale: nat)
    ensures LinesOk(everyone, lines + [line], scale) <==>
      LinesOk(everyone, lines, scale) && LineTargets(everyone, line).Ok? && ToUnits(line.amount, scale) >= 0
  {
    var more := lines + [line];
    assert more[|lines|] == line;
    assert forall k :: 0 <= k < |lines| ==> more[k] == lines[k];
  }

  lemma {:induction false} LinesAcceptedIff(everyone: seq<UserId>, lines: seq<Line>, scale: nat)
    requires ScaleOk(scale)
    ensures AccumulateLines(everyone, lines, scale).Ok? <==> LinesOk(everyone, lines, scale)
  {
    if lines != [] {
      var n := |lines| - 1;
      LinesAcceptedIff(everyone, lines[..n], scale);
      OneMoreLineAccepted(everyone, lines[..n], lines[n], scale);
      OneMoreLineOk(everyone, lines[..n], lines[n], scale);
      assert lines[..n] + [lines[n]] == lines;
    }
  }

  lemma OneMoreLineAccepted(everyone: seq<UserId>, lines: seq<Line>, line: Line, scale: nat)
    requires ScaleOk(scale)
    ensures AccumulateLines(everyone, lines + [line], scale).Ok? <==>
      AccumulateLines(everyone, lines, scale).Ok? && LineTargets(everyone, line).Ok? && ToUnits(line.amount, scale) >= 0
  {
    assert (lines + [line])[..|lines|] == lines;
    LineAcceptedIff(everyone, line, scale);
  }

  lemma LineAcceptedIff(everyone: seq<UserId>, line: Line, scale: nat)
    requires ScaleOk(scale)
    ensures LineParts(everyone, line, scale).Ok? <==>
      LineTargets(everyone, line).Ok? && ToUnits(line.amount, scale) >= 0
  {
    DedupEmpty(everyone);
    DedupEmpty(line.participants);
    if LineTargets(everyone, line).Ok? {
      EqualSharesAreFair(line.amount, |LineTargets(everyone, line).value|, scale);
    }
  }

  lemma NonNegativeRounds(x: Decimal, scale: nat)
    requires x >= 0.0
    ensures ToUnits(x, scale) >= 0
  {
    ScaledZero(scale);
    ScaledLinear(0.0, x, scale);
  }

  lemma AdjustmentGuardsPassIff(fixed: Entries, remainder: seq<UserId>, total: Decimal, scale: nat)
    requires ScaleOk(scale)
    ensures AdjustmentShares(fixed, remainder, total, scale).Ok? <==> OwnGuards(Adjustment(fixed, remainder), total)
  {
    DedupEmpty(remainder);
    if SumD(fixed) <= total {
      NonNegativeRounds(total - SumD(fixed), scale);
      EqualSharesAreFair(total - SumD(fixed), |Dedup(remainder)|, scale);
    }
  }

  lemma RawGuardsPassIff(input: SplitInput, total: Decimal, scale: nat)
    requires ScaleOk(scale)
    ensures SharesOf(input, total, scale).Ok? <==> RawGuards(input, total, scale)
  {
    match input {
      case Equal(participants) =>
        DedupEmpty(participants);
        EqualSharesAreFair(total, |Dedup(participants)|, scale);
      case Exact(amounts) =>
      case Percentage(percentages) =>
        if percentages != [] { WeighsIff(percentages, total, scale); }
      case Shares(shares) =>
        if shares != [] {
          WeighsIff(shares, total, scale);
          if OwnGuards(input, total) { SomePositive(shares); }
        }
      case Adjustment(fixed, remainder) => AdjustmentGuardsPassIff(fixed, remainder, total, scale);
      case Itemized(everyone, lines) => LinesAcceptedIff(everyone, lines, scale);
    }
  }

  /**
   * For any input whatever, a split succeeds if and only if the scale is allowed, the guards pass, and the parts,
   * each rounded the way its type rounds them, sum to within the tolerance of the total.
   */
  lemma ComputeSucceedsIff(input: SplitInput, total: Decimal, scale: nat)
    ensures Compute(input, total, scale).Ok? <==>
      && ScaleOk(scale)
      && RawGuards(input, total, scale)
      && AbsD(FromUnits(RoundedSum(input, total, scale), scale) - total) <= EPS
  {
    if SharesOf(input, total, scale).Ok? {
      SharesSumToRoundedSum(input, total, scale);
    }
    if ScaleOk(scale) {
      RawGuardsPassIff(input, total, scale);
    }
  }

  // ---------- When compute succeeds, for amounts with few enough decimals

  ghost predicate AlignedEntries(entries: seq<(UserId, Decimal)>, scale: nat) {
    forall i :: 0 <= i < |entries| ==> Aligned(entries[i].1, scale) && entries[i].1 >= 0.0
  }

  /** All amounts of the input are non-negative and have at most `scale` decimals. */
  ghost predicate AlignedInput(input: SplitInput, total: Decimal, scale: nat) {
    && Aligned(total, scale) && total >= 0.0
    && match input
       case Equal(_) => true
       case Exact(amounts) => AlignedEntries(amounts, scale)
       case Percentage(percentages) => AlignedEntries(percentages, scale)
       case Shares(shares) => AlignedEntries(shares, scale)
       case Adjustment(fixed, _) => AlignedEntries(fixed, scale)
       case Itemized(_, lines) =>
         forall k :: 0 <= k < |lines| ==> Aligned(lines[k].amount, scale) && lines[k].amount >= 0.0
  }

  lemma {:induction false} AlignedSum(entries: seq<(UserId, Decimal)>, scale: nat)
    requires AlignedEntries(entries, scale)
    ensures Scaled(SumD(entries), scale) == Sum(UnitsOfAll(Amounts(entries), scale)) as real
    ensures SumD(entries) >= 0.0
  {
    ScaledZero(scale);
    if entries != [] {
      var n := |entries| - 1;
      AlignedSum(entries[..n], scale);
      ScaledLinear(SumD(entries[..n]), entries[n].1, scale);
      var u := ToUnits(entries[n].1, scale);
      assert UnitsOfAll(Amounts(entries), scale) == UnitsOfAll(Amounts(entries[..n]), scale) + [u];
      SumAppend(UnitsOfAll(Amounts(entries[..n]), scale), [u]);
    }
  }

  lemma {:induction false} AlignedLineSum(lines: seq<Line>, scale: nat)
    requires forall k :: 0 <= k < |lines| ==> Aligned(lines[k].amount, scale)
    ensures Scaled(SumLines(lines), scale) == LineUnits(lines, scale) as real
  {
    ScaledZero(scale);
    if lines != [] {
      var n := |lines| - 1;
      AlignedLineSum(lines[..n], scale);
      ScaledLinear(SumLines(lines[..n]), lines[n].amount, scale);
    }
  }

  lemma {:induction false} SomePositive(entries: seq<(UserId, Decimal)>)
    requires entries != [] && forall i :: 0 <= i < |entries| ==> entries[i].1 > 0.0
    ensures SumD(entries) > 0.0
  {
    var n := |entries| - 1;
    if n > 0 {
      SomePositive(entries[..n]);
    }
  }

  lemma RemainderIsAligned(fixed: Entries, total: Decimal, scale: nat)
    requires AlignedEntries(fixed, scale) && Aligned(total, scale)
    ensures var rest := total - SumD(fixed);
      Aligned(rest, scale) && ToUnits(rest, scale) == ToUnits(total, scale) - Sum(UnitsOfAll(Amounts(fixed), scale))
  {
    AlignedSum(fixed, scale);
    ScaledLinear(total, SumD(fixed), scale);
    UnscaledOf(total - SumD(fixed), ToUnits(total, scale) - Sum(UnitsOfAll(Amounts(fixed), scale)), scale);
  }

  lemma AlignedWeigh(weights: Entries, total: Decimal, scale: nat)
    requires AlignedEntries(weights, scale) && SumD(weights) > 0.0 && Aligned(total, scale) && total >= 0.0
    ensures Weighs(weights, total, scale)
  {
    AlignedSum(weights, scale);
    ScaledZero(scale);
    ScaledLinear(0.0, SumD(weights), scale);
    NonNegativeRounds(total, scale);
    forall i | 0 <= i < |weights| ensures ToUnits(weights[i].1, scale) >= 0 { NonNegativeRounds(weights[i].1, scale); }
  }

  /** Aligned parts round to what they are, so the rounded sum is the sum. */
  lemma AlignedRoundedSum(input: SplitInput, total: Decimal, scale: nat)
    requires AlignedInput(input, total, scale) && OwnGuards(input, total)
    ensures AbsD(FromUnits(RoundedSum(input, total, scale), scale) - total) <= EPS
  {
    UnscaledOf(total, ToUnits(total, scale), scale);
    match input {
      case Exact(amounts) =>
        AlignedSum(amounts, scale);
        UnscaledOf(SumD(amounts), Sum(UnitsOfAll(Amounts(amounts), scale)), scale);
      case Adjustment(fixed, _) => RemainderIsAligned(fixed, total, scale);
      case Itemized(_, lines) =>
        AlignedLineSum(lines, scale);
        UnscaledOf(SumLines(lines), LineUnits(lines, scale), scale);
      case _ =>
    }
  }

  /**
   * On non-negative inputs with at most `scale` decimals, a split succeeds exactly when its own guards pass:
   * neither the rounding engine nor the final sum check ever fails.
   */
  lemma AlignedInputsFailOnlyTheirGuards(input: SplitInput, total: Decimal, scale: nat)
    requires ScaleOk(scale) && AlignedInput(input, total, scale)
    ensures Compute(input, total, scale).Ok? <==> OwnGuards(input, total)
  {
    ComputeSucceedsIff(input, total, scale);
    if OwnGuards(input, total) {
      AlignedRoundedSum(input, total, scale);
      NonNegativeRounds(total, scale);
      match input {
        case Percentage(percentages) => AlignedWeigh(percentages, total, scale);
        case Shares(shares) =>
          SomePositive(shares);
          AlignedWeigh(shares, total, scale);
        case Itemized(_, lines) =>
          forall k | 0 <= k < |lines| ensures ToUnits(lines[k].amount, scale) >= 0 {
            NonNegativeRounds(lines[k].amount, scale);
          }
        case _ =>
      }
    }
  }

  /**
   * With finer amounts the final check can fail after the guard has passed: three thirds of 100 sum exactly,
   * but rounded one by one they miss the total by a cent and the split is refused as an internal error.
   */
  lemma FineAmountsCanFailTheFinalCheck(u: UserId, v: UserId, w: UserId)
    requires u != v && v != w && u != w
    ensures var amounts: seq<(UserId, Decimal)> := [(u, 33.333), (v, 33.333), (w, 33.334)];
      && OneEntryPerUser(amounts)
      && OwnGuards(Exact(amounts), 100.0)
      && Compute(Exact(amounts), 100.0, 2) == Err(InternalSumMismatch)
  {
    var amounts: Entries := [(u, 33.333), (v, 33.333), (w, 33.334)];
    var one: seq<(UserId, Decimal)> := [(u, 33.333)];
    var two: seq<(UserId, Decimal)> := [(u, 33.333), (v, 33.333)];
    assert SumD(one) == 33.333;
    assert two[..|two| - 1] == one && SumD(two) == 66.666;
    assert amounts[..|amounts| - 1] == two && SumD(amounts) == 100.0;
    assert Scaled(33.333, 2) == 3333.3 && Scaled(33.334, 2) == 3333.4;
    assert ToUnits(33.333, 2) == 3333 && ToUnits(33.334, 2) == 3333;
    var shares := RoundEach(amounts, 2);
    assert Owed(shares) == [3333, 3333, 3333];
    assert Sum([3333]) == 3333 && [3333, 3333][1..] == [3333] && Sum([3333, 3333]) == 6666;
    assert [3333, 3333, 3333][1..] == [3333, 3333];
    assert Unscaled(9999.0, 1) == 999.9 && FromUnits(9999, 2) == 99.99;
  }

  /**
   * Equal shares go to the participants in the order in which they are first named, are never more than one minor unit
   * apart, and never rise.
   */
  lemma EqualSplitIsFair(participants: seq<UserId>, total: Decimal, scale: nat)
    requires ScaleOk(scale) && EqualShares(participants, total, scale).Ok?
    ensures var shares := EqualShares(participants, total, scale).value;
      && (forall u :: u in participants <==> exists i :: 0 <= i < |shares| && shares[i].user == u)
      && (forall i, j :: 0 <= i <= j < |shares| ==> shares[j].owed <= shares[i].owed <= shares[j].owed + 1)
      && (forall i, j :: 0 <= i < j < |shares| ==>
            && shares[i].user in participants && shares[j].user in participants
            && FirstAt(participants, shares[i].user) < FirstAt(participants, shares[j].user))
  {
    var ids := Dedup(participants);
    var shares := EqualShares(participants, total, scale).value;
    EqualSharesAreFair(total, |ids|, scale);
    forall i, j | 0 <= i < j < |shares|
      ensures shares[i].user in participants && shares[j].user in participants
      ensures FirstAt(participants, shares[i].user) < FirstAt(participants, shares[j].user)
    {
      DedupKeepsOrder(participants, i, j);
    }
    forall u ensures u in participants <==> exists i :: 0 <= i < |shares| && shares[i].user == u {
      if u in participants {
        var i :| 0 <= i < |ids| && ids[i] == u;
        assert shares[i].user == u;
      }
    }
  }

  // ---------- Errors

  /** The final check neither changes the shares nor loses any. */
  lemma ComputeReturnsTheShares(input: SplitInput, total: Decimal, scale: nat)
    requires Compute(input, total, scale).Ok?
    ensures var r := Compute(input, total, scale).value;
      SharesOf(input, total, scale) == Ok(r.shares) && r.sumOwed == SumOwed(r.shares)
  {
  }

  /** Which error a failing guard raises, in the order in which they are checked. */
  lemma FailingGuardsAreNamed(input: SplitInput, total: Decimal, scale: nat)
    ensures input.Equal? ==> input.participants == [] ==> Compute(input, total, scale) == Err(NoParticipants)
    ensures input.Exact? ==>
      var r := Compute(input, total, scale);
      && (input.amounts == [] ==> r == Err(NoParticipants))
      && (input.amounts != [] && AbsD(SumD(input.amounts) - total) > EPS ==> r == Err(AmountsDoNotSum))
    ensures input.Percentage? ==>
      var r, given := Compute(input, total, scale), input.percentages;
      && (given == [] ==> r == Err(NoParticipants))
      && (given != [] && AbsD(SumD(given) - 100.0) > 0.01 ==> r == Err(PercentagesDoNotSum))
    ensures input.Shares? ==>
      var r, given := Compute(input, total, scale), input.shares;
      && (given == [] ==> r == Err(NoParticipants))
      && ((exists i :: 0 <= i < |given| && given[i].1 <= 0.0) ==> r == Err(ShareNotPositive))
    ensures input.Adjustment? ==>
      var r, rest := Compute(input, total, scale), total - SumD(input.fixed);
      var clash := exists u :: u in input.remainder && u in Users(input.fixed);
      && (clash ==> r == Err(RemainderNotDisjoint))
      && (!clash && input.remainder == [] ==> r == Err(NoRemainderUsers))
      && (!clash && input.remainder != [] && rest < -EPS ==> r == Err(FixedExceedTotal))
      && (!clash && input.remainder != [] && -EPS <= rest < 0.0 ==> r == Err(RemainderNegative))
    ensures input.Itemized? ==>
      var r, lines := Compute(input, total, scale), input.lines;
      && (input.everyone == [] ==> r == Err(NoParticipants))
      && (input.everyone != [] && LinesOk(input.everyone, lines, scale) && ScaleOk(scale) ==>
            AbsD(SumLines(lines) - total) > EPS ==> r == Err(LinesDoNotSum))
  {
    DedupEmpty(if input.Equal? then input.participants else []);
    if input.Itemized? && ScaleOk(scale) {
      LinesAcceptedIff(input.everyone, input.lines, scale);
    }
  }

  /** The first line with a user outside the group, or with no user at all, is reported as such. */
  lemma BadLineIsNamed(everyone: seq<UserId>, lines: seq<Line>, k: nat, scale: nat)
    requires everyone != [] && ScaleOk(scale) && k < |lines| && LinesOk(everyone, lines[..k], scale)
    ensures var r := AccumulateLines(everyone, lines, scale);
      && (!lines[k].amongEveryone && lines[k].participants == [] ==> r == Err(LineWithoutParticipants))
      && (!lines[k].amongEveryone && (exists u :: u in lines[k].participants && u !in everyone) ==>
            r == Err(LineOutsideGroup))
  {
    LinesAcceptedIff(everyone, lines[..k], scale);
    assert lines[..k + 1][..k] == lines[..k];
    if AccumulateLines(everyone, lines[..k + 1], scale).Err? {
      FirstBadLine(everyone, lines, k + 1, scale);
    }
  }

  /** A split that passes its guards fails only for its rounded sum. */
  lemma OnlyTheSumIsLeftToFail(input: SplitInput, total: Decimal, scale: nat)
    requires ScaleOk(scale) && RawGuards(input, total, scale)
    ensures Compute(input, total, scale).Err? ==> Compute(input, total, scale) == Err(InternalSumMismatch)
  {
    RawGuardsPassIff(input, total, scale);
  }

  // ---------- Who owes what

  /**
   * A percentage or shares split gives each entry's user what follows that entry's weight, rounded to the scale: within
   * one unit of its quota, never less than a smaller weight, and one unit apart at most from an equal one.
   */
  lemma WeightedSharesFollowTheirEntries(input: SplitInput, entries: Entries, total: Decimal, scale: nat,
                                         shares: seq<Share>, us: seq<int>, i: nat, j: nat)
    requires input == Percentage(entries) || input == Shares(entries)
    requires |us| == |entries| && forall k :: 0 <= k < |us| ==> us[k] == ToUnits(entries[k].1, scale)
    requires SharesOf(input, total, scale) == Ok(shares) && i < |entries| && j < |entries|
    ensures |shares| == |entries| && shares[i].user == entries[i].0 && Sum(us) > 0
    ensures Abs(shares[i].owed * Sum(us) - ToUnits(total, scale) * us[i]) < Sum(us)
    ensures us[i] > us[j] ==> shares[i].owed >= shares[j].owed
    ensures us[i] == us[j] && i <= j ==> shares[j].owed <= shares[i].owed <= shares[j].owed + 1
  {
    WeightedSharesAre(input, entries, total, scale);
    ZippedSharesFollow(entries, total, scale, us, DistributeMoney(total, Amounts(entries), scale).value, i, j);
  }

  lemma ZippedSharesFollow(entries: Entries, total: Decimal, scale: nat, us: seq<int>, parts: seq<int>, i: nat, j: nat)
    requires |us| == |entries| && forall k :: 0 <= k < |us| ==> us[k] == ToUnits(entries[k].1, scale)
    requires DistributeMoney(total, Amounts(entries), scale) == Ok(parts) && i < |entries| && j < |entries|
    ensures var shares := Zip(Users(entries), parts);
      && shares[i].user == entries[i].0 && Sum(us) > 0
      && Abs(shares[i].owed * Sum(us) - ToUnits(total, scale) * us[i]) < Sum(us)
      && (us[i] > us[j] ==> shares[i].owed >= shares[j].owed)
      && (us[i] == us[j] && i <= j ==> shares[j].owed <= shares[i].owed <= shares[j].owed + 1)
  {
    MoneyFollowsWeights(total, Amounts(entries), scale, us, i, j);
    ZippedAt(entries, parts, i);
    ZippedAt(entries, parts, j);
  }

  lemma WeightedSharesAre(input: SplitInput, entries: Entries, total: Decimal, scale: nat)
    requires input == Percentage(entries) || input == Shares(entries)
    requires SharesOf(input, total, scale).Ok?
    ensures entries != [] && DistributeMoney(total, Amounts(entries), scale).Ok?
    ensures SharesOf(input, total, scale).value ==
      Zip(Users(entries), DistributeMoney(total, Amounts(entries), scale).value)
  {
  }

  lemma ZippedAt(entries: Entries, parts: seq<int>, i: nat)
    requires |parts| == |entries| && i < |entries|
    ensures Zip(Users(entries), parts)[i] == Share(entries[i].0, parts[i])
  {
  }

  /** An exact split: each entry's user owes that entry's own amount, rounded. */
  lemma ExactAmountsAreOwed(amounts: Entries, total: Decimal, scale: nat, i: nat)
    requires ExactShares(amounts, total, scale).Ok? && i < |amounts|
    ensures var shares := ExactShares(amounts, total, scale).value;
      |shares| == |amounts| && shares[i] == Share(amounts[i].0, ToUnits(amounts[i].1, scale))
  {
  }

  /**
   * An adjustment split: the fixed users owe their own amounts, rounded; then come the remainder users, each once, who
   * together owe what the fixed amounts leave of the total, no two more than one unit apart.
   */
  lemma FixedThenRemainderAreOwed(fixed: Entries, remainder: seq<UserId>, total: Decimal, scale: nat,
                                  shares: seq<Share>)
    requires AdjustmentShares(fixed, remainder, total, scale) == Ok(shares)
    ensures |shares| >= |fixed|
    ensures forall i :: 0 <= i < |fixed| ==> shares[i] == Share(fixed[i].0, ToUnits(fixed[i].1, scale))
    ensures OweEqually(shares[|fixed|..], remainder, ToUnits(total - SumD(fixed), scale))
  {
    AdjustmentSharesAre(fixed, remainder, total, scale, shares);
    FixedThenEqual(fixed, remainder, total - SumD(fixed), scale);
  }

  /** These users, each of them listed, owe this amount together, no two more than a unit apart, earlier ones first. */
  ghost predicate OweEqually(shares: seq<Share>, users: seq<UserId>, units: int) {
    && (forall u :: u in users <==> exists i :: 0 <= i < |shares| && shares[i].user == u)
    && SumOwed(shares) == units
    && (forall i, j :: 0 <= i <= j < |shares| ==> shares[j].owed <= shares[i].owed <= shares[j].owed + 1)
  }

  lemma FixedThenEqual(fixed: Entries, remainder: seq<UserId>, left: Decimal, scale: nat)
    requires ScaleOk(scale) && EqualShares(remainder, left, scale).Ok?
    ensures var shares := RoundEach(fixed, scale) + EqualShares(remainder, left, scale).value;
      && (forall i :: 0 <= i < |fixed| ==> shares[i] == Share(fixed[i].0, ToUnits(fixed[i].1, scale)))
      && OweEqually(shares[|fixed|..], remainder, ToUnits(left, scale))
  {
    var rest := EqualShares(remainder, left, scale).value;
    assert (RoundEach(fixed, scale) + rest)[|fixed|..] == rest;
    EqualSplitIsFair(remainder, left, scale);
    EqualPartsSum(Dedup(remainder), left, scale);
  }

  lemma AdjustmentSharesAre(fixed: Entries, remainder: seq<UserId>, total: Decimal, scale: nat, shares: seq<Share>)
    requires AdjustmentShares(fixed, remainder, total, scale) == Ok(shares)
    ensures ScaleOk(scale) && EqualShares(remainder, total - SumD(fixed), scale).Ok?
    ensures shares == RoundEach(fixed, scale) + EqualShares(remainder, total - SumD(fixed), scale).value
  {
    DedupEmpty(remainder);
  }

  /** The users a line is split among. */
  predicate SharesLine(everyone: seq<UserId>, line: Line, u: UserId) {
    if line.amongEveryone then u in everyone else u in line.participants
  }

  /** A line's users owe for it, no two more than one unit apart; no one else does. */
  lemma LineIsSplitFairly(everyone: seq<UserId>, line: Line, scale: nat, u: UserId, v: UserId)
    requires LineParts(everyone, line, scale).Ok?
    ensures HasKey(LineParts(everyone, line, scale).value, u) <==> SharesLine(everyone, line, u)
    ensures !SharesLine(everyone, line, u) ==> LineOwed(everyone, line, u, scale) == 0
    ensures SharesLine(everyone, line, u) && SharesLine(everyone, line, v) ==>
      Abs(LineOwed(everyone, line, u, scale) - LineOwed(everyone, line, v, scale)) <= 1
  {
    var targets := LineTargets(everyone, line).value;
    var parts := DistributeEqual(line.amount, |targets|, scale).value;
    var m := LineParts(everyone, line, scale).value;
    EqualSharesAreFair(line.amount, |targets|, scale);
    assert OneEntryPerKey(m);
    assert forall i :: 0 <= i < |m| ==> m[i] == (targets[i], parts[i]);
    PartOf(m, targets, parts, u);
    PartOf(m, targets, parts, v);
  }

  lemma PartOf(m: OMap, targets: seq<UserId>, parts: seq<int>, u: UserId)
    requires |m| == |targets| == |parts| && forall i :: 0 <= i < |m| ==> m[i] == (targets[i], parts[i])
    requires OneEntryPerKey(m)
    ensures HasKey(m, u) <==> u in targets
    ensures u !in targets ==> SumAt(m, u) == 0
    ensures u in targets ==> exists i :: 0 <= i < |parts| && SumAt(m, u) == parts[i]
  {
    HasKeyIff(m, u);
    GetIsSumAt(m, u);
    if u in targets {
      var i :| 0 <= i < |targets| && targets[i] == u;
      assert m[i].0 == u;
      IndexUnique(m, u, i);
      assert SumAt(m, u) == parts[i];
    }
  }

  predicate SharesSomeLine(everyone: seq<UserId>, lines: seq<Line>, u: UserId) {
    exists k :: 0 <= k < |lines| && SharesLine(everyone, lines[k], u)
  }

  lemma SharesOneMoreLine(everyone: seq<UserId>, lines: seq<Line>, line: Line, u: UserId)
    ensures SharesSomeLine(everyone, lines + [line], u) <==>
      SharesSomeLine(everyone, lines, u) || SharesLine(everyone, line, u)
  {
    var more := lines + [line];
    assert more[|lines|] == line;
    if k :| 0 <= k < |lines| && SharesLine(everyone, lines[k], u) {
      assert more[k] == lines[k];
    }
  }

  lemma UsersOfOneMoreLine(everyone: seq<UserId>, lines: seq<Line>, line: Line, scale: nat, u: UserId)
    requires AccumulateLines(everyone, lines + [line], scale).Ok?
    ensures AccumulateLines(everyone, lines, scale).Ok?
    ensures HasKey(AccumulateLines(everyone, lines + [line], scale).value, u) <==>
      HasKey(AccumulateLines(everyone, lines, scale).value, u) || SharesLine(everyone, line, u)
  {
    assert (lines + [line])[..|lines|] == lines;
    var acc, parts := AccumulateLines(everyone, lines, scale).value, LineParts(everyone, line, scale).value;
    LineIsSplitFairly(everyone, line, scale, u, u);
    HasKeyIff(parts, u);
    KeyOfAddAll(acc, parts, u);
  }

  lemma {:induction false} AccumulatedUsers(everyone: seq<UserId>, lines: seq<Line>, scale: nat, u: UserId)
    requires AccumulateLines(everyone, lines, scale).Ok?
    ensures HasKey(AccumulateLines(everyone, lines, scale).value, u) <==> SharesSomeLine(everyone, lines, u)
  {
    if lines != [] {
      var front, last := lines[..|lines| - 1], lines[|lines| - 1];
      assert lines == front + [last];
      UsersOfOneMoreLine(everyone, front, last, scale, u);
      AccumulatedUsers(everyone, front, scale, u);
      SharesOneMoreLine(everyone, front, last, u);
    }
  }

  /**
   * An itemized split: the users of any of the lines, in rising order, each owing the sum of what the lines make them
   * owe.
   */
  lemma ItemizedSharesAreSumsOfLines(everyone: seq<UserId>, lines: seq<Line>, total: Decimal, scale: nat,
                                     shares: seq<Share>, u: UserId)
    requires ItemizedShares(everyone, lines, total, scale) == Ok(shares)
    ensures forall i, j :: 0 <= i < j < |shares| ==> shares[i].user < shares[j].user
    ensures forall i :: 0 <= i < |shares| && shares[i].user == u ==>
                          shares[i].owed == LinesOwed(everyone, lines, u, scale)
    ensures (exists i :: 0 <= i < |shares| && shares[i].user == u) <==> SharesSomeLine(everyone, lines, u)
  {
    ItemizedSharesAre(everyone, lines, total, scale, shares);
    var acc := AccumulateLines(everyone, lines, scale).value;
    AccumulatedIsSumOfLines(everyone, lines, u, scale);
    AccumulatedUsers(everyone, lines, scale, u);
    SortedMapShares(acc, u);
  }

  lemma ItemizedSharesAre(everyone: seq<UserId>, lines: seq<Line>, total: Decimal, scale: nat, shares: seq<Share>)
    requires ItemizedShares(everyone, lines, total, scale) == Ok(shares)
    ensures AccumulateLines(everyone, lines, scale).Ok?
    ensures shares == AsShares(Sorting.Sort(ById(), AccumulateLines(everyone, lines, scale).value))
  {
  }

  lemma SortedMapShares(acc: OMap, u: UserId)
    requires OneEntryPerKey(acc)
    ensures var shares := AsShares(Sorting.Sort(ById(), acc));
      && (forall i, j :: 0 <= i < j < |shares| ==> shares[i].user < shares[j].user)
      && (forall i :: 0 <= i < |shares| && shares[i].user == u ==> shares[i].owed == Get(acc, u))
      && ((exists i :: 0 <= i < |shares| && shares[i].user == u) <==> HasKey(acc, u))
  {
    var sorted := Sorting.Sort(ById(), acc);
    var shares := AsShares(sorted);
    HasKeyIff(acc, u);
    SortKeepsMap(acc);
    Sorting.SortSorts(ById(), acc);
    Sorting.SortIsPermutation(ById(), acc);
    forall i, j | 0 <= i < j < |shares| ensures shares[i].user < shares[j].user {
      assert ById()(sorted[i], sorted[j]) && sorted[i].0 != sorted[j].0;
    }
    forall i | 0 <= i < |shares| && shares[i].user == u ensures shares[i].owed == Get(acc, u) && HasKey(acc, u) {
      assert sorted[i] in acc;
      var k :| 0 <= k < |acc| && acc[k] == sorted[i];
      IndexUnique(acc, u, k);
    }
    if k :| 0 <= k < |acc| && acc[k].0 == u {
      assert acc[k] in sorted;
      var i :| 0 <= i < |sorted| && sorted[i] == acc[k];
      assert shares[i].user == u;
    }
  }
}
