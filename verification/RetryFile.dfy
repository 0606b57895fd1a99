/**
  The boot-retry counter kept in the checkpoint metadata file, and the two flags that say whether a
  checkpoint is in progress.
*/
module RetryFile {
  import opened Wrappers

  const INT32_MAX := 0x7FFF_FFFF

  // ----- Printing and parsing decimal numbers -----

  predicate IsDigit(c: char) {
    '0' <= c <= '9'
  }

  function ToString(n: nat): (s: string)
    ensures s != [] && forall i :: 0 <= i < |s| ==> IsDigit(s[i])
  {
    (if n < 10 then [] else ToString(n / 10)) + [Digit(n % 10)]
  }

  function Digit(n: nat): (c: char)
    requires n < 10
    ensures IsDigit(c) && DigitValue(c) == n
  {
    ('0' as int + n) as char
  }

  function DigitValue(c: char): (n: nat)
    requires IsDigit(c)
    ensures n < 10
  {
    c as int - '0' as int
  }

  function ParseDigits(s: string): Option<nat> {
    if s == [] then Some(0)
    else
      var last := s[|s| - 1];
      if !IsDigit(last) then None
      else match ParseDigits(s[..|s| - 1])
        case None => None
        case Some(high) =>
          var n: nat := 10 * high + DigitValue(last);
          Some(n)
  }

  /** Decimal numbers with an optional minus sign that fit 32 bits. */
  function ParseInt(s: string): (r: Option<int>)
    ensures r.Some? ==> -INT32_MAX - 1 <= r.value <= INT32_MAX
  {
    var negative := s != [] && s[0] == '-';
    var digits := if negative then s[1..] else s;
    if digits == [] then None
    else match ParseDigits(digits)
      case None => None
      case Some(n) =>
        var value: int := if negative then 0 - n else n;
        if -INT32_MAX - 1 <= value <= INT32_MAX then Some(value) else None
  }

  lemma ParseOneMore(high: string, last: char, n: nat)
    requires IsDigit(last) && ParseDigits(high) == Some(n)
    ensures ParseDigits(high + [last]) == Some(10 * n + DigitValue(last))
  {
    hide IsDigit, DigitValue;
    var s := high + [last];
    assert s[..|s| - 1] == high && s[|s| - 1] == last;
  }

  lemma {:induction false} ParsesDigitsBack(n: nat)
    ensures ParseDigits(ToString(n)) == Some(n)
  {
    hide Digit, DigitValue, IsDigit, ParseDigits;
    if n < 10 {
      ParseNothing();
      ParseOneMore([], Digit(n), 0);
      assert [] + [Digit(n)] == ToString(n);
    } else {
      ParsesDigitsBack(n / 10);
      ParseOneMore(ToString(n / 10), Digit(n % 10), n / 10);
    }
  }

  lemma ParseNothing()
    ensures ParseDigits([]) == Some(0)
  {
  }

  /** What is printed is parsed back. */
  lemma ParsesBack(n: nat)
    requires n <= 0x7FFF_FFFF
    ensures ParseInt(ToString(n)) == Some(n)
  {
    ParsesDigitsBack(n);
    hide ToString, ParseDigits;
    assert IsDigit(ToString(n)[0]);
  }

  lemma OnlyZeroPrintsAsZero(n: nat)
    ensures ToString(n) == "0" <==> n == 0
  {
    ZeroPrints();
    hide ToString, ParseDigits;
    ParsesDigitsBack(n);
    ParsesDigitsBack(0);
  }

  lemma ZeroPrints()
    ensures ToString(0) == "0"
  {
  }

  // ----- The file -----

  /** The part of the contents before the first space. */
  function CounterText(content: string): string {
    if content == [] || content[0] == ' ' then [] else [content[0]] + CounterText(content[1..])
  }

  lemma {:induction false} CounterTextOfPrefix(s: string, rest: string)
    requires ' ' !in s && (rest == [] || rest[0] == ' ')
    ensures CounterText(s + rest) == s
  {
    if s == [] {
      assert s + rest == rest;
    } else {
      assert (s + rest)[1..] == s[1..] + rest;
      CounterTextOfPrefix(s[1..], rest);
    }
  }

  /** What starting a checkpoint writes; the slot suffix is added only for -1. */
  function Started(retry: int, suffix: string): string
    requires -1 <= retry
  {
    ToString(retry + 1) + if retry == -1 && suffix != [] then " " + suffix else []
  }

  /** The file after a boot attempt; None means there is no file. */
  function Marked(file: Option<string>): Option<string> {
    match file
    case None => None
    case Some(content) => match ParseInt(CounterText(content))
      case None => file
      case Some(retry) => if retry > 0 then Some(ToString(retry - 1)) else file
  }

  /** The file after changes are aborted for good. */
  function Aborted(file: Option<string>): Option<string> {
    match file
    case None => None
    case Some(content) => match ParseInt(CounterText(content))
      case None => file
      case Some(retry) => if retry > 0 then Some("0") else file
  }

  /** Must the device be rolled back?  `slot` is the suffix of the running slot, if it is known. */
  predicate RollbackNeeded(file: Option<string>, slot: Option<string>) {
    && file.Some?
    && (file.value == "0"
        || ("-1 " <= file.value && slot.Some? && file.value[3..] == slot.value))
  }

  /** Only two contents ask for rollback: a used-up counter, and a mark of the very slot that runs. */
  lemma RollbackNeededIff(file: Option<string>, slot: Option<string>)
    ensures RollbackNeeded(file, slot) <==> file == Some("0") || (slot.Some? && file == Some("-1 " + slot.value))
  {
    if file.Some? && "-1 " <= file.value {
      assert file.value == "-1 " + file.value[3..];
    }
    if slot.Some? {
      assert ("-1 " + slot.value)[3..] == slot.value;
    }
  }

  function Counter(file: Option<string>): Option<int> {
    if file.None? then None else ParseInt(CounterText(file.value))
  }

  // ----- The counter over boots -----

  function AfterBoots(file: Option<string>, boots: nat): Option<string> {
    if boots == 0 then file else Marked(AfterBoots(file, boots - 1))
  }

  lemma CounterOfNumber(n: nat, rest: string)
    requires n <= INT32_MAX && (rest == [] || rest[0] == ' ')
    ensures Counter(Some(ToString(n) + rest)) == Some(n)
  {
    hide ToString, CounterText, ParseInt;
    CounterTextOfPrefix(ToString(n), rest);
    ParsesBack(n);
  }

  lemma {:induction false} CounterAfterBoots(retry: nat, boots: nat)
    requires retry < INT32_MAX
    ensures AfterBoots(Some(ToString(retry + 1)),
        boots) == Some(ToString(if boots <= retry then retry + 1 - boots else 0))
    decreases boots
  {
    hide ToString, CounterText, ParseInt;
    if boots > 0 {
      CounterAfterBoots(retry, boots - 1);
      var left := if boots - 1 <= retry then retry + 1 - (boots - 1) else 0;
      CounterOfNumber(left, []);
      assert ToString(left) + [] == ToString(left);
    }
  }

  lemma {:induction false} SuffixedZeroStays(suffix: string, boots: nat)
    requires suffix != []
    ensures AfterBoots(Some("0 " + suffix), boots) == Some("0 " + suffix)
    decreases boots
  {
    hide ToString, CounterText, ParseInt;
    if boots > 0 {
      SuffixedZeroStays(suffix, boots - 1);
      ZeroPrints();
      assert "0 " + suffix == "0" + (" " + suffix);
      CounterOfNumber(0, " " + suffix);
    }
  }

  /**
    A started checkpoint asks for rollback exactly from the (retry + 1)-th boot attempt on, except
    when it was started with -1 on a device with a slot suffix: then it never does, because the
    counter is printed one higher than the check expects.
  */
  lemma RollbackAfterRetries(retry: int, suffix: string, boots: nat, slot: Option<string>)
    requires -1 <= retry < 0x7FFF_FFFF
    ensures RollbackNeeded(AfterBoots(Some(Started(retry, suffix)), boots), slot)
      <==> boots >= retry + 1 && !(retry == -1 && suffix != [])
  {
    ZeroPrints();
    hide ToString, CounterText, ParseInt, Marked;
    if retry == -1 && suffix != [] {
      assert Started(retry, suffix) == "0 " + suffix;
      SuffixedZeroStays(suffix, boots);
      assert ("0 " + suffix)[1] == ' ';
    } else {
      assert Started(retry, suffix) == ToString(retry + 1);
      if retry == -1 {
        ZeroStays(boots);
      } else {
        CounterAfterBoots(retry, boots);
        var left := if boots <= retry then retry + 1 - boots else 0;
        OnlyZeroPrintsAsZero(left);
        assert IsDigit(ToString(left)[0]);
      }
    }
  }

  lemma {:induction false} ZeroStays(boots: nat)
    ensures AfterBoots(Some("0"), boots) == Some("0")
  {
    hide ToString, CounterText, ParseInt;
    if boots > 0 {
      ZeroStays(boots - 1);
      ZeroPrints();
      CounterOfNumber(0, []);
      assert "0" + [] == "0";
    }
  }

  // ----- The counter in any run -----

  datatype Event = BootAttempt | Abort

  function AfterEvents(file: Option<string>, events: seq<Event>): Option<string>
    decreases |events|
  {
    if events == [] then file
    else AfterEvents(if events[0].BootAttempt? then Marked(file) else Aborted(file), events[1..])
  }

  /** Boot attempts and aborts never raise the counter and never take it below zero. */
  lemma {:induction false} CounterNeverRises(file: Option<string>, events: seq<Event>)
    requires Counter(file).Some?
    ensures Counter(AfterEvents(file, events)).Some?
    ensures Counter(AfterEvents(file, events)).value <= Counter(file).value
    ensures Counter(file).value >= 0 ==> Counter(AfterEvents(file, events)).value >= 0
    decreases |events|
  {
    hide ToString, CounterText, ParseInt;
    if events != [] {
      var retry := Counter(file).value;
      var next := if events[0].BootAttempt? then Marked(file) else Aborted(file);
      if retry > 0 {
        ZeroPrints();
        var n := if events[0].BootAttempt? then retry - 1 else 0;
        CounterOfNumber(n, []);
        assert ToString(n) + [] == ToString(n);
        assert next == Some(ToString(n));
      }
      CounterNeverRises(next, events[1..]);
    }
  }

  /** Contents with no positive counter stay as they are. */
  lemma {:induction false} NothingLeftStays(file: Option<string>, events: seq<Event>)
    requires Counter(file).Some? ==> Counter(file).value <= 0
    ensures AfterEvents(file, events) == file
    decreases |events|
  {
    hide CounterText, ParseInt;
    if events != [] {
      NothingLeftStays(file, events[1..]);
    }
  }

  /**
    Aborting settles it: a positive counter becomes 0 and any other file stays, through any further boot
    attempts and aborts.  Rollback is then asked for exactly if tries were left or it was asked for before.
  */
  lemma AbortSettles(file: Option<string>, events: seq<Event>, slot: Option<string>)
    ensures var left := Counter(file).Some? && Counter(file).value > 0;
      var after := AfterEvents(file, [Abort] + events);
      && after == (if left then Some("0") else file)
      && (RollbackNeeded(after, slot) <==> left || RollbackNeeded(file, slot))
  {
    ZeroPrints();
    CounterOfNumber(0, []);
    hide ToString, CounterText, ParseInt;
    assert "0" + [] == "0";
    assert ([Abort] + events)[1..] == events;
    NothingLeftStays(Aborted(file), events);
  }

  // ----- The state the commands act on -----

  datatype Status = Ok | Error

  class CheckpointState {
    var file: Option<string>
    var isCheckpointing: bool
    var needsCheckpointWasCalled: bool

    constructor (file: Option<string>)
      ensures this.file == file && !isCheckpointing && !needsCheckpointWasCalled
    {
      this.file, isCheckpointing, needsCheckpointWasCalled := file, false, false;
    }

    method StartCheckpoint(retry: int, suffix: string, supported: bool) returns (status: Status)
      requires retry < 0x7FFF_FFFF
      modifies this`file
      ensures status == if supported && retry >= -1 then Ok else Error
      ensures file == if status == Ok then Some(Started(retry, suffix)) else old(file)
    {
      if !supported || retry < -1 {
        return Error;
      }
      var content := ToString(retry + 1);
      if retry == -1 {
        if suffix != [] {
          content := content + " " + suffix;
        }
      }
      assert ToString(retry + 1) + [] == ToString(retry + 1);
      assert ToString(retry + 1) + " " + suffix == ToString(retry + 1) + (" " + suffix);
      file := Some(content);
      return Ok;
    }

    method MarkBootAttempt() returns (status: Status)
      modifies this`file
      ensures file == Marked(old(file))
      ensures Counter(old(file)).Some? && Counter(old(file)).value > 0 ==>
        file == Some(ToString(Counter(old(file)).value - 1))
      ensures Counter(old(file)).None? || Counter(old(file)).value <= 0 ==> file == old(file)
      ensures status == if old(file).Some? && Counter(old(file)).None? then Error else Ok
    {
      if file.None? {
        return Ok;
      }
      var retry := ParseInt(CounterText(file.value));
      if retry.None? {
        return Error;
      }
      if retry.value > 0 {
        file := Some(ToString(retry.value - 1));
      }
      return Ok;
    }

    method AbortMetadataFile()
      modifies this`file
      ensures file == Aborted(old(file))
      ensures Counter(old(file)).Some? && Counter(old(file)).value > 0 ==>
        file == Some("0") && forall slot :: RollbackNeeded(file, slot)
      ensures Counter(old(file)).None? || Counter(old(file)).value <= 0 ==> file == old(file)
    {
      if file.None? {
        return;
      }
      var retry := ParseInt(CounterText(file.value));
      if retry.Some? && retry.value > 0 {
        file := Some("0");
      }
    }

    /** Answers once and remembers: only the first call after a start or a reset can begin a checkpoint. */
    method NeedsCheckpoint(slotUnproven: bool) returns (needed: bool)
      modifies this`isCheckpointing, this`needsCheckpointWasCalled
      ensures needed == isCheckpointing && needsCheckpointWasCalled
      ensures isCheckpointing == (old(isCheckpointing)
        || (!old(needsCheckpointWasCalled) && (slotUnproven || (file.Some? && file.value != "0"))))
    {
      if needsCheckpointWasCalled {
        return isCheckpointing;
      }
      needsCheckpointWasCalled := true;
      if isCheckpointing {
        return true;
      }
      if slotUnproven {
        isCheckpointing := true;
        return true;
      }
      if file.Some? {
        isCheckpointing := file.value != "0";
        return isCheckpointing;
      }
      return false;
    }

    /** Ends the checkpoint; `worker` says whether the deferred work was started. */
    method CommitChanges(allowed: bool, bootMarked: bool, mountsDone: bool, removed: bool)
      returns (status: Status, worker: bool)
      modifies this`file, this`isCheckpointing
      ensures worker <==> old(isCheckpointing) && allowed && bootMarked && mountsDone && removed
      ensures isCheckpointing == (old(isCheckpointing) && !(allowed && bootMarked && mountsDone))
      ensures file == if worker then None else old(file)
      ensures status == Error <==> old(isCheckpointing) && allowed && !(bootMarked && mountsDone && removed)
    {
      if !isCheckpointing || !allowed {
        return Ok, false;
      }
      if !bootMarked || !mountsDone {
        return Error, false;
      }
      isCheckpointing := false;
      if !removed {
        return Error, false;
      }
      file := None;
      return Ok, true;
    }

    method ResetCheckpoint()
      modifies this`needsCheckpointWasCalled
      ensures !needsCheckpointWasCalled
    {
      needsCheckpointWasCalled := false;
    }
  }
}
