/** Upload routes, multipart sizing and completion validation. */
module Multipart {
  import opened Wrappers

  const U64_MAX := 0xffff_ffff_ffff_ffff
  const U32_MAX := 0xffff_ffff
  type u64 = x: int | 0 <= x <= U64_MAX
  type u32 = x: int | 0 <= x <= U32_MAX

  const MIB := 1_048_576
  const GIB := 1_073_741_824
  const TIB := 1_099_511_627_776
  const SINGLE_UPLOAD_MAX_BYTES := 100 * MIB
  const MULTIPART_MIN_FILE_BYTES := SINGLE_UPLOAD_MAX_BYTES + 1
  const TARGET_PART_COUNT := 1_000
  const MIN_PART_BYTES := 8 * MIB
  const MAX_PART_BYTES := 5 * GIB
  const MAX_UPLOAD_BYTES := 5 * TIB
  const MAX_PART_COUNT := 10_000

  datatype PlanError = NotRequired | FileTooLarge | ArithmeticOverflow | TooManyParts
  datatype Plan = Plan(fileSize: u64, partSize: u64, partCount: u32)
  datatype Strategy = SingleRequest | Chunked(plan: Plan)

  // ---- sizing ------------------------------------------------------------

  lemma MulLe(a: nat, b: nat, c: nat)
    requires a <= b
    ensures a * c <= b * c
  {
  }

  lemma MulSucc(a: nat, c: nat)
    requires a >= 1
    ensures (a - 1) * c + c == a * c && (a - 1) * c >= 0
  {
    MulLe(0, a - 1, c);
  }

  function CheckedCeilDiv(dividend: u64, divisor: u64): Result<u64, PlanError> {
    if divisor == 0 then Err(ArithmeticOverflow)
    else
      var q := dividend / divisor + (if dividend % divisor != 0 then 1 else 0);
      if q > U64_MAX then Err(ArithmeticOverflow) else Ok(q)
  }

  function PlanFor(fileSize: u64): Result<Plan, PlanError> {
    if fileSize < MULTIPART_MIN_FILE_BYTES then Err(NotRequired)
    else if fileSize > MAX_UPLOAD_BYTES then Err(FileTooLarge)
    else
      var calculated :- CheckedCeilDiv(fileSize, TARGET_PART_COUNT);
      var wholeMib :- CheckedCeilDiv(calculated, MIB);
      if wholeMib * MIB > U64_MAX then Err(ArithmeticOverflow)
      else
        var partSize: u64 := Max(MIN_PART_BYTES, Min(wholeMib * MIB, MAX_PART_BYTES));
        var count :- CheckedCeilDiv(fileSize, partSize);
        if count > U32_MAX then Err(ArithmeticOverflow)
        else if count > MAX_PART_COUNT then Err(TooManyParts)
        else Ok(Plan(fileSize, partSize, count))
  }

  function StrategyFor(fileSize: u64): Result<Strategy, PlanError> {
    if fileSize <= SINGLE_UPLOAD_MAX_BYTES then Ok(SingleRequest)
    else
      var plan :- PlanFor(fileSize);
      Ok(Chunked(plan))
  }

  /** The exact size of one numbered part; `None` outside the plan or when it cannot be evaluated. */
  function ExpectedPartSize(plan: Plan, number: u32): Option<u64> {
    if number == 0 || number > plan.partCount then None
    else if number < plan.partCount then Some(plan.partSize)
    else
      var preceding := (plan.partCount - 1) * plan.partSize;
      assert preceding >= 0 by { MulLe(0, plan.partCount - 1, plan.partSize); }
      if preceding > U64_MAX || plan.fileSize < preceding then None
      else Some(plan.fileSize - preceding)
  }

  /** The first byte of a numbered part. */
  function PartOffset(plan: Plan, number: nat): int
    requires number >= 1
  {
    (number - 1) * plan.partSize
  }

  /** `parts` pieces of `size` bytes are enough for the file. */
  predicate Enough(fileSize: nat, size: nat, parts: nat) {
    fileSize <= parts * size
  }

  /** Rounding up: the quotient is the least number of pieces that is enough. */
  lemma CeilDivIsLeast(a: u64, b: u64, k: nat)
    requires a > 0 && b > 0
    ensures CheckedCeilDiv(a, b).Ok?
    ensures var q := CheckedCeilDiv(a, b).value;
            q >= 1 && (q - 1) * b < a <= q * b && (a <= k * b <==> q <= k)
  {
    var d, m := a / b, a % b;
    assert a == d * b + m;
    assert d <= a by {
      MulLe(1, b, d);
    }
    var q := CheckedCeilDiv(a, b).value;
    if q <= k {
      MulLe(q, k, b);
    } else {
      MulLe(k, q - 1, b);
    }
  }

  ghost predicate WellFormed(plan: Plan) {
    && 1 <= plan.partCount
    && 1 <= plan.partSize
    && (plan.partCount - 1) * plan.partSize < plan.fileSize <= plan.partCount * plan.partSize
  }

  /** The part size the formula settles on, and how many parts it makes enough. */
  lemma PartSizeIsEnough(fileSize: u64) returns (size: u64)
    requires MULTIPART_MIN_FILE_BYTES <= fileSize <= MAX_UPLOAD_BYTES
    ensures size % MIB == 0 && MIN_PART_BYTES <= size <= MAX_PART_BYTES
    ensures Enough(fileSize, size, 1_024)
    ensures if fileSize <= 5_000 * GIB then Enough(fileSize, size, TARGET_PART_COUNT) else size == 5 * GIB
    ensures PlanFor(fileSize) ==
              (var count :- CheckedCeilDiv(fileSize, size);
               if count > U32_MAX then Err(ArithmeticOverflow)
               else if count > MAX_PART_COUNT then Err(TooManyParts)
               else Ok(Plan(fileSize, size, count)))
  {
    CeilDivIsLeast(fileSize, TARGET_PART_COUNT, 5_632 * MIB);
    var calculated := CheckedCeilDiv(fileSize, TARGET_PART_COUNT).value;
    CeilDivIsLeast(calculated, MIB, 5_632);
    CeilDivIsLeast(fileSize, TARGET_PART_COUNT, 5 * GIB);
    CeilDivIsLeast(calculated, MIB, 5_120);
    var whole := CheckedCeilDiv(calculated, MIB).value;
    size := Max(MIN_PART_BYTES, Min(whole * MIB, MAX_PART_BYTES));
  }

  /** Every size above 100 MiB and up to 5 TiB gets a plan, and nothing else does. */
  lemma PlanIsTotal(fileSize: u64)
    ensures PlanFor(fileSize).Ok? <==> 100 * MIB < fileSize <= 5 * TIB
    ensures fileSize <= 100 * MIB ==> PlanFor(fileSize) == Err(NotRequired)
    ensures fileSize > 5 * TIB ==> PlanFor(fileSize) == Err(FileTooLarge)
    ensures PlanFor(fileSize).Ok? ==>
              var plan := PlanFor(fileSize).value;
              && plan.fileSize == fileSize && WellFormed(plan)
              && plan.partSize % MIB == 0 && MIN_PART_BYTES <= plan.partSize <= MAX_PART_BYTES
              && plan.partCount <= 1_024
              && (if fileSize <= 5_000 * GIB then plan.partCount <= TARGET_PART_COUNT else plan.partSize == 5 * GIB)
  {
    if MULTIPART_MIN_FILE_BYTES <= fileSize <= MAX_UPLOAD_BYTES {
      var partSize := PartSizeIsEnough(fileSize);
      CeilDivIsLeast(fileSize, partSize, TARGET_PART_COUNT);
      CeilDivIsLeast(fileSize, partSize, 1_024);
    }
  }

  /** A file goes up in one request up to 100 MiB, in planned parts up to 5 TiB, and not at all beyond. */
  lemma RouteBySize(fileSize: u64)
    ensures match StrategyFor(fileSize)
            case Ok(SingleRequest) => fileSize <= 100 * MIB
            case Ok(Chunked(plan)) => 100 * MIB < fileSize <= 5 * TIB && plan.fileSize == fileSize && WellFormed(plan)
            case Err(e) => fileSize > 5 * TIB && e == FileTooLarge
  {
    PlanIsTotal(fileSize);
  }

  /** Up to 5,000 GiB no smaller whole-MiB part size of at least 8 MiB needs at most 1,000 parts. */
  lemma PlanIsOptimal(fileSize: u64, mib: nat)
    requires MULTIPART_MIN_FILE_BYTES <= fileSize <= 5_000 * GIB
    requires 8 <= mib && Enough(fileSize, mib * MIB, TARGET_PART_COUNT)
    ensures PlanFor(fileSize).Ok? && PlanFor(fileSize).value.partSize <= mib * MIB
  {
    PlanIsTotal(fileSize);
    CeilDivIsLeast(fileSize, TARGET_PART_COUNT, mib * MIB);
    var calculated := CheckedCeilDiv(fileSize, TARGET_PART_COUNT).value;
    CeilDivIsLeast(calculated, MIB, mib);
  }

  /** The parts are non-empty and tile the file exactly, in order. */
  lemma PartsTile(plan: Plan, number: u32)
    requires WellFormed(plan) && 1 <= number <= plan.partCount
    ensures ExpectedPartSize(plan, number).Some?
    ensures
      var size := ExpectedPartSize(plan, number).value;
      && 0 < size <= plan.partSize
      && 0 <= PartOffset(plan, number)
      && PartOffset(plan, number) + size <= plan.fileSize
      && PartOffset(plan, number) + size
         == if number < plan.partCount then PartOffset(plan, number + 1) else plan.fileSize
    ensures PartOffset(plan, 1) == 0
  {
    var size := plan.partSize;
    MulSucc(plan.partCount, size);
    MulSucc(number, size);
    if number < plan.partCount {
      MulLe(number, plan.partCount - 1, size);
    }
  }

  // ---- completion --------------------------------------------------------

  datatype CompletedPart = CompletedPart(number: u32, etag: string, size: u64)

  datatype CompletionError =
    | PartCountNotRepresentable
    | WrongPartCount
    | UnexpectedPartNumber(position: nat)
    | WrongPartSize(number: u32)
    | ByteTotalOverflow
    | WrongByteTotal

  /** Exactly parts 1 to n of the plan, in order, each of its planned size. */
  ghost predicate ExactParts(plan: Plan, parts: seq<CompletedPart>) {
    && |parts| == plan.partCount
    && forall i :: 0 <= i < |parts| ==>
         parts[i].number == i + 1 && Some(parts[i].size) == ExpectedPartSize(plan, i + 1)
  }

  /** The first `n` parts are as planned. */
  ghost predicate PlannedUpTo(plan: Plan, parts: seq<CompletedPart>, n: nat)
    requires n <= |parts| && n <= plan.partCount
  {
    forall i :: 0 <= i < n ==> parts[i].number == i + 1 && Some(parts[i].size) == ExpectedPartSize(plan, i + 1)
  }

  /** A refusal names the first fault: a wrong number of parts, else the first part not as planned. */
  ghost predicate FirstFault(plan: Plan, parts: seq<CompletedPart>, e: CompletionError) {
    match e
    case PartCountNotRepresentable => |parts| > U32_MAX
    case WrongPartCount => |parts| != plan.partCount
    case UnexpectedPartNumber(position) =>
      && 1 <= position <= |parts| == plan.partCount && PlannedUpTo(plan, parts, position - 1)
      && parts[position - 1].number != position
    case WrongPartSize(number) =>
      && 1 <= number <= |parts| == plan.partCount && PlannedUpTo(plan, parts, number - 1)
      && parts[number - 1].number == number && Some(parts[number - 1].size) != ExpectedPartSize(plan, number)
    case _ => false
  }

  /**
   * Accepts exactly the planned part list; the overflow and wrong-total errors
   * cannot be reached, because planned sizes already add up to the file size.
   */
  method ValidateCompletion(plan: Plan, parts: seq<CompletedPart>) returns (r: Result<(), CompletionError>)
    requires WellFormed(plan)
    ensures r.Ok? <==> ExactParts(plan, parts)
    ensures r.Err? ==> FirstFault(plan, parts, r.error)
  {
    if |parts| > U32_MAX {
      return Err(PartCountNotRepresentable);
    }
    if |parts| != plan.partCount {
      return Err(WrongPartCount);
    }
    var total := 0;
    for i := 0 to |parts|
      invariant total == if i < plan.partCount then PartOffset(plan, i + 1) else plan.fileSize
      invariant forall j :: 0 <= j < i ==>
        parts[j].number == j + 1 && Some(parts[j].size) == ExpectedPartSize(plan, j + 1)
    {
      var part := parts[i];
      if part.number != i + 1 {
        return Err(UnexpectedPartNumber(i + 1));
      }
      PartsTile(plan, i + 1);
      var expected := ExpectedPartSize(plan, i + 1);
      if expected.None? {
        return Err(PartCountNotRepresentable);
      }
      if part.size != expected.value {
        return Err(WrongPartSize(part.number));
      }
      if total + part.size > U64_MAX {
        return Err(ByteTotalOverflow);
      }
      total := total + part.size;
    }
    if total != plan.fileSize {
      return Err(WrongByteTotal);
    }
    return Ok(());
  }
}
