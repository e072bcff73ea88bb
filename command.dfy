/**
 * The command layer shared by every provider (lib/puppet/provider/mongodb.rb):
 * building the `mongo` argument vector, the bounded retry loop, the rewriting of
 * shell output into JSON text, and the version and authorization checks.
 *
 * Running `mongo` is an oracle: `outcome(i)` is what the i-th attempt does.
 * Sleeping is recorded as the list of waits instead of being performed.
 */
module Command {

  import opened Wrappers
  import opened Text
  import opened Collections

  // ---------------------------------------------------------------- options

  /**
   * The keys of the options hash that `mongo_command` reads. `json` and `rc` are
   * false only when the caller passed `false`; `db` and `host` are None when the
   * key reads as nil; `retries` is the budget below.
   */
  datatype Options = Options(json: bool, rc: bool, db: Option<string>, host: Option<string>, retries: Budget)

  /**
   * `args_hash['retries'] || 0`: a count, or the String that indexing a String argument
   * yields, on which the guard `2**retries` raises TypeError.
   */
  datatype Budget = Count(n: nat) | Text(s: string)

  const Defaults := Options(true, true, None, None, Count(0))

  /** The second argument of `mongo_command` as written at the call site: a hash, or (once) a plain string. */
  datatype OptionsArg = Hash(options: Options) | Plain(text: string)

  /** One call of `mongo_command`: its JavaScript text and its second argument. */
  datatype Invocation = Invocation(command: string, arg: OptionsArg)

  /**
   * What a caller of `mongo_command` gets back: the reply (the parsed JSON, or the raw
   * text when `json` is false), Puppet::ExecutionFailure, or any other exception.
   */
  datatype Reply<T> = Answer(value: T) | ExecFailure(message: string) | OtherFailure(message: string)

  /**
   * The options `mongo_command` reads from its second argument. For a String,
   * `s['db']` is the substring "db" when it occurs in `s` and nil otherwise, and
   * likewise for 'host' and 'retries'; 'json' and 'rc' never read as `false`.
   */
  function Resolve(arg: OptionsArg): Options {
    match arg
    case Hash(o) => o
    case Plain(s) =>
      Options(true, true,
              if Contains(s, "db") then Some("db") else None,
              if Contains(s, "host") then Some("host") else None,
              if Contains(s, "retries") then Text("retries") else Count(0))
  }

  // ---------------------------------------------------------------- eval text

  /** The `--eval` text: `printjson(...)` unless json is false, then the rc prefix unless rc is false. */
  function EvalText(command: string, o: Options, rcText: string): string {
    var wrapped := if o.json then "printjson(" + command + ")" else command;
    if o.rc then rcText + "; " + wrapped else wrapped
  }

  /** Reads the caller's command back out of an eval text, peeling the outermost layer first. */
  function CommandOf(text: string, o: Options, rcText: string): Option<string> {
    var inner := if !o.rc then Some(text)
                 else if StartsWith(text, rcText + "; ") then Some(text[|rcText| + 2..])
                 else None;
    match inner
    case None => None
    case Some(w) =>
      if !o.json then Some(w)
      else if StartsWith(w, "printjson(") && |w| >= 11 && w[|w| - 1] == ')' then Some(w[10..|w| - 1])
      else None
  }

  /** The two wrapping layers lose nothing, and the rc prefix is the outer one. */
  lemma EvalTextRoundTrip(command: string, o: Options, rcText: string)
    ensures CommandOf(EvalText(command, o, rcText), o, rcText) == Some(command)
    ensures o.rc && o.json ==> StartsWith(EvalText(command, o, rcText), rcText + "; printjson(")
  {
    var wrapped := if o.json then "printjson(" + command + ")" else command;
    var text := EvalText(command, o, rcText);
    if o.rc {
      assert text == (rcText + "; ") + wrapped;
      assert text[|rcText| + 2..] == wrapped;
      if o.json {
        assert text == (rcText + "; printjson(") + command + ")";
      }
    }
    if o.json {
      assert wrapped[10..|wrapped| - 1] == command;
    }
  }

  // ---------------------------------------------------------------- argument vector

  /** What an argument vector tells `mongo`: the database, the host if any, and the eval text. */
  datatype Argv = Argv(db: string, host: Option<string>, eval: string)

  /** Reads `--quiet <db> [--host <h>] --eval <text>`; None for any other shape. */
  function ParseArgs(args: seq<string>): Option<Argv> {
    if |args| == 4 && args[0] == "--quiet" && args[2] == "--eval" then
      Some(Argv(args[1], None, args[3]))
    else if |args| == 6 && args[0] == "--quiet" && args[2] == "--host" && args[4] == "--eval" then
      Some(Argv(args[1], Some(args[3]), args[5]))
    else None
  }

  // ---------------------------------------------------------------- retry loop

  /** What one run of `mongo` did: printed its output, or raised Puppet::ExecutionFailure. */
  datatype Attempt = Ran(stdout: string) | Failed(message: string)

  /** How the begin/rescue/retry block ends: with output, re-raising, or with `output` never assigned. */
  datatype Exit = Output(text: string) | Raised(message: string) | Unset

  datatype Run = Run(exit: Exit, attempts: nat, sleeps: seq<nat>)

  function Pow2(n: nat): (p: nat)
    ensures p >= 1
  {
    if n == 0 then 1 else 2 * Pow2(n - 1)
  }

  /** The two failure texts that are waited out; every other failure is re-raised. */
  predicate Retryable(message: string) {
    Contains(message, "Error: couldn't connect to server") || Contains(message, "slaveOk=false")
  }

  /** The loop from attempt `i` on, with the current `wait`; the guard is the source's `wait <= 2**retries`. */
  function RunFrom(retries: nat, outcome: nat -> Attempt, i: nat, wait: nat): Run
    requires wait >= 1
    decreases if wait <= Pow2(retries) then Pow2(retries) + 1 - wait else 0
  {
    match outcome(i)
    case Ran(s) => Run(Output(s), i + 1, [])
    case Failed(m) =>
      if wait <= Pow2(retries) then
        if Retryable(m) then
          var rest := RunFrom(retries, outcome, i + 1, 2 * wait);
          Run(rest.exit, rest.attempts, [wait] + rest.sleeps)
        else Run(Raised(m), i + 1, [])
      else Run(Unset, i + 1, [])
  }

  /** The whole loop: the first wait is 2. */
  function Retry(retries: nat, outcome: nat -> Attempt): Run {
    RunFrom(retries, outcome, 0, 2)
  }

  /** The begin/rescue/retry block, sleeping by recording each wait. */
  method RetryLoop(retries: nat, outcome: nat -> Attempt) returns (exit: Exit, attempts: nat, sleeps: seq<nat>)
    ensures Run(exit, attempts, sleeps) == Retry(retries, outcome)
  {
    var wait: nat := 2;
    attempts, sleeps := 0, [];
    while true
      invariant wait >= 1
      invariant var rest := RunFrom(retries, outcome, attempts, wait);
                Retry(retries, outcome) == Run(rest.exit, rest.attempts, sleeps + rest.sleeps)
      decreases if wait <= Pow2(retries) then Pow2(retries) + 1 - wait else 0
    {
      var a := outcome(attempts);
      attempts := attempts + 1;
      if a.Ran? {
        exit := Output(a.stdout);
        return;
      }
      if wait <= Pow2(retries) {
        if Retryable(a.message) {
          sleeps := sleeps + [wait];
          wait := wait * 2;
        } else {
          exit := Raised(a.message);
          return;
        }
      } else {
        exit := Unset;
        return;
      }
    }
  }

  lemma {:induction false} Pow2Monotonic(a: nat, b: nat)
    requires a <= b
    ensures Pow2(a) <= Pow2(b)
    decreases b
  {
    if a < b {
      Pow2Monotonic(a, b - 1);
    }
  }

  function Sum(s: seq<nat>): nat {
    if s == [] then 0 else s[0] + Sum(s[1..])
  }

  /** How the last attempt (`n` attempts in all, budget `r`) decides the exit. */
  predicate Concludes(e: Exit, last: Attempt, n: nat, r: nat) {
    match e
    case Output(s) => last == Ran(s)
    case Raised(m) => last == Failed(m) && !Retryable(m) && n <= r
    case Unset => last.Failed? && n == r + 1
  }

  /** The wait before attempt `i + 1` is 2^(i+1), and it is within the budget exactly when `i < r`. */
  lemma WaitWithinBudget(r: nat, i: nat)
    requires i <= r
    ensures 2 * Pow2(i) == Pow2(i + 1)
    ensures 2 * Pow2(i) <= Pow2(r) <==> i < r
  {
    if i < r {
      Pow2Monotonic(i + 1, r);
    }
  }

  /** A retried attempt `i`: the loop sleeps 2^(i+1) and goes on from attempt `i + 1`. */
  lemma RunFromRetries(r: nat, outcome: nat -> Attempt, i: nat)
    requires i <= r
    requires outcome(i).Failed? && i < r && Retryable(outcome(i).message)
    ensures var run, rest := RunFrom(r, outcome, i, 2 * Pow2(i)), RunFrom(r, outcome, i + 1, 2 * Pow2(i + 1));
            run == Run(rest.exit, rest.attempts, [Pow2(i + 1)] + rest.sleeps)
  {
    WaitWithinBudget(r, i);
  }

  /** An attempt that is not retried ends the loop without another wait. */
  lemma RunFromStops(r: nat, outcome: nat -> Attempt, i: nat)
    requires i <= r
    requires !(outcome(i).Failed? && i < r && Retryable(outcome(i).message))
    ensures RunFrom(r, outcome, i, 2 * Pow2(i)).sleeps == []
  {
    WaitWithinBudget(r, i);
  }

  lemma {:induction false} RunFromEnds(r: nat, outcome: nat -> Attempt, i: nat)
    requires i <= r
    ensures var run := RunFrom(r, outcome, i, 2 * Pow2(i));
            && i + 1 <= run.attempts <= r + 1
            && |run.sleeps| == run.attempts - 1 - i
            && Concludes(run.exit, outcome(run.attempts - 1), run.attempts, r)
    decreases r - i
  {
    WaitWithinBudget(r, i);
    if outcome(i).Failed? && 2 * Pow2(i) <= Pow2(r) && Retryable(outcome(i).message) {
      RunFromEnds(r, outcome, i + 1);
    }
  }

  lemma {:induction false} RunFromWaits(r: nat, outcome: nat -> Attempt, i: nat)
    requires i <= r
    ensures var run := RunFrom(r, outcome, i, 2 * Pow2(i));
            forall k :: 0 <= k < |run.sleeps| ==> run.sleeps[k] == Pow2(i + k + 1)
    decreases r - i
  {
    WaitWithinBudget(r, i);
    if outcome(i).Failed? && i < r && Retryable(outcome(i).message) {
      RunFromWaits(r, outcome, i + 1);
      RunFromRetries(r, outcome, i);
      var rest := RunFrom(r, outcome, i + 1, 2 * Pow2(i + 1)).sleeps;
      var s := [Pow2(i + 1)] + rest;
      forall k | 0 <= k < |s| ensures s[k] == Pow2(i + k + 1) {
        if k > 0 { assert s[k] == rest[k - 1]; }
      }
    } else {
      RunFromStops(r, outcome, i);
    }
  }

  /** Waits that double from 2^(i+1) add up to 2^(i+1+n) - 2^(i+1). */
  lemma {:induction false} SumOfDoublings(i: nat, s: seq<nat>)
    requires forall k :: 0 <= k < |s| ==> s[k] == Pow2(i + k + 1)
    ensures Sum(s) == Pow2(i + 1 + |s|) - Pow2(i + 1)
    decreases |s|
  {
    if s != [] {
      forall k | 0 <= k < |s| - 1 ensures s[1..][k] == Pow2(i + 1 + k + 1) {
        assert s[1..][k] == s[k + 1];
      }
      SumOfDoublings(i + 1, s[1..]);
      assert Pow2(i + 2) == 2 * Pow2(i + 1);
    }
  }

  lemma {:induction false} RunFromRetried(r: nat, outcome: nat -> Attempt, i: nat)
    requires i <= r
    ensures var run := RunFrom(r, outcome, i, 2 * Pow2(i));
            forall k :: i <= k < run.attempts - 1 ==> outcome(k).Failed? && Retryable(outcome(k).message)
    decreases r - i
  {
    WaitWithinBudget(r, i);
    if outcome(i).Failed? && 2 * Pow2(i) <= Pow2(r) && Retryable(outcome(i).message) {
      RunFromRetried(r, outcome, i + 1);
    }
  }

  /**
   * At most `retries + 1` attempts; the waits are 2, 4, 8, ... and add up to
   * 2^attempts - 2; every attempt but the last failed with a retryable message;
   * output is returned as printed, a non-retryable failure within the budget is
   * re-raised, and when the budget is spent the failure is dropped (`Unset`).
   */
  lemma RetryShape(retries: nat, outcome: nat -> Attempt)
    ensures var run := Retry(retries, outcome);
            && 1 <= run.attempts <= retries + 1
            && |run.sleeps| == run.attempts - 1
            && (forall k :: 0 <= k < |run.sleeps| ==> run.sleeps[k] == Pow2(k + 1))
            && Sum(run.sleeps) == Pow2(run.attempts) - 2
            && (forall k :: 0 <= k < run.attempts - 1 ==> outcome(k).Failed? && Retryable(outcome(k).message))
            && Concludes(run.exit, outcome(run.attempts - 1), run.attempts, retries)
  {
    var run := Retry(retries, outcome);
    assert Pow2(0) == 1 && Pow2(1) == 2;
    RunFromEnds(retries, outcome, 0);
    RunFromWaits(retries, outcome, 0);
    SumOfDoublings(0, run.sleeps);
    assert 1 + |run.sleeps| == run.attempts;
    RunFromRetried(retries, outcome, 0);
  }

  /** A host that keeps refusing connections is tried exactly `retries + 1` times, sleeping 2^(retries+1) - 2 seconds. */
  lemma PersistentFailureExhaustsBudget(retries: nat, outcome: nat -> Attempt, m: string)
    requires Retryable(m)
    requires forall i :: outcome(i) == Failed(m)
    ensures var run := Retry(retries, outcome);
            run.exit == Unset && run.attempts == retries + 1 && Sum(run.sleeps) == Pow2(retries + 1) - 2
  {
    RetryShape(retries, outcome);
  }

  /** Within the budget any other failure is re-raised at once, without sleeping. */
  lemma OtherFailureRaisedAtOnce(retries: nat, outcome: nat -> Attempt, m: string)
    requires retries >= 1 && outcome(0) == Failed(m) && !Retryable(m)
    ensures Retry(retries, outcome) == Run(Raised(m), 1, [])
  {
  }

  // ---------------------------------------------------------------- parse_as_json

  /** The three shell wrappers that `parse_as_json` removes. */
  datatype Wrapper = ObjectId | ISODate | Timestamp

  function Opening(w: Wrapper): string {
    match w
    case ObjectId => "ObjectId("
    case ISODate => "ISODate("
    case Timestamp => "Timestamp("
  }

  /** First index of `)` or a line break. */
  function CloseOrBreak(u: string): (k: Option<nat>)
    ensures k.None? ==> forall j :: 0 <= j < |u| ==> u[j] != ')' && u[j] != '\n'
    ensures k.Some? ==> k.value < |u| && (u[k.value] == ')' || u[k.value] == '\n')
                        && forall j :: 0 <= j < k.value ==> u[j] != ')' && u[j] != '\n'
  {
    if u == [] then None
    else if u[0] == ')' || u[0] == '\n' then Some(0)
    else match CloseOrBreak(u[1..])
      case None => None
      case Some(j) => Some(j + 1)
  }

  /**
   * `(.+?)\)`: the shortest non-empty run of non-newline characters followed by `)`.
   * Its first character may itself be `)`.
   */
  function LazyCapture(t: string): (k: Option<nat>)
    ensures k.Some? ==> 1 <= k.value < |t| && t[k.value] == ')' && t[0] != '\n'
                        && forall j :: 1 <= j < k.value ==> t[j] != ')' && t[j] != '\n'
    ensures k.None? ==> forall j :: 1 <= j < |t| && t[j] == ')' ==> exists i :: 0 <= i < j && t[i] == '\n'
  {
    if t == [] || t[0] == '\n' then None
    else match CloseOrBreak(t[1..])
      case None => None
      case Some(j) => if t[1 + j] == ')' then Some(1 + j) else None
  }

  /** Length of the capture right after the opening, when the pattern matches there. */
  function CaptureLength(w: Wrapper, t: string): (k: Option<nat>)
    ensures k.Some? ==> k.value < |t| && t[k.value] == ')'
  {
    match w
    case ObjectId => IndexOf(t, ')')
    case _ => LazyCapture(t)
  }

  /** The replacement text: `\1`, `\1 ` and `[\1]`. */
  function Render(w: Wrapper, x: string): string {
    match w
    case ObjectId => x
    case ISODate => x + " "
    case Timestamp => "[" + x + "]"
  }

  /** `gsub!` of one wrapper pattern: leftmost match first, scanning on after each replacement. */
  function Gsub(w: Wrapper, s: string): string
    decreases |s|
  {
    if s == [] then []
    else if StartsWith(s, Opening(w)) && CaptureLength(w, s[|Opening(w)|..]).Some? then
      var n := |Opening(w)|;
      var k := CaptureLength(w, s[n..]).value;
      Render(w, s[n..n + k]) + Gsub(w, s[n + k + 1..])
    else [s[0]] + Gsub(w, s[1..])
  }

  /** The text `parse_as_json` hands to JSON.parse. */
  function Normalize(s: string): string {
    var t := if s == "null\n" then "{}" else s;
    Gsub(Timestamp, Gsub(ISODate, Gsub(ObjectId, t)))
  }

  /** What happens to the output on its way to JSON.parse. */
  datatype Returned =
    | Raw(text: string)                 // json == false: the output as printed
    | RawNil                            // json == false and the budget was spent: nil
    | ParseInput(text: string)          // the rewritten text handed to JSON.parse
    | ExecutionFailure(message: string) // Puppet::ExecutionFailure re-raised
    | NilReceiver                       // parse_as_json(nil): NoMethodError on `gsub!`
    | BudgetTypeError                   // the guard `2**"retries"` in the rescue: TypeError

  /** `parse_as_json`: rewrite `str` step by step, as the source does with `gsub!`. */
  method ParseAsJson(str: Option<string>) returns (r: Returned)
    ensures str.None? ==> r == NilReceiver
    ensures str.Some? ==> r == ParseInput(Normalize(str.value))
  {
    if str.None? {
      r := NilReceiver;
      return;
    }
    var s := str.value;
    if s == "null\n" {
      s := "{}";
    }
    s := Gsub(ObjectId, s);
    s := Gsub(ISODate, s);
    s := Gsub(Timestamp, s);
    r := ParseInput(s);
  }

  lemma {:induction false} GsubUnchanged(w: Wrapper, s: string)
    requires !Contains(s, Opening(w))
    ensures Gsub(w, s) == s
    decreases |s|
  {
    if s != [] {
      GsubUnchanged(w, s[1..]);
    }
  }

  /** `ObjectId(x)` becomes `x` when `x` holds no `)`. */
  lemma ObjectIdUnwrapped(x: string, rest: string)
    requires ')' !in x
    ensures Gsub(ObjectId, "ObjectId(" + x + ")" + rest) == x + Gsub(ObjectId, rest)
  {
    var s := "ObjectId(" + x + ")" + rest;
    assert s[..9] == "ObjectId(";
    assert s[9..] == x + ")" + rest;
    assert IndexOf(s[9..], ')') == Some(|x|) by {
      assert (x + ")" + rest)[|x|] == ')';
      assert (x + ")" + rest)[..|x|] == x;
    }
    assert s[9..9 + |x|] == x;
    assert s[9 + |x| + 1..] == rest;
  }

  /** The lazy capture of a one-line `x` without `)` stops at the `)` right after it. */
  lemma LazyCaptureOf(x: string, rest: string)
    requires x != [] && '\n' !in x && ')' !in x
    ensures LazyCapture(x + ")" + rest) == Some(|x|)
  {
    var t := x + ")" + rest;
    assert t[0] == x[0] && t[|x|] == ')';
    var u := t[1..];
    assert u[|x| - 1] == ')';
    assert forall j :: 0 <= j < |x| - 1 ==> u[j] == x[j + 1];
    assert CloseOrBreak(u) == Some(|x| - 1);
  }

  /** `ISODate(x)` becomes `x ` for a one-line `x` without `)`. */
  lemma ISODateUnwrapped(x: string, rest: string)
    requires x != [] && '\n' !in x && ')' !in x
    ensures Gsub(ISODate, "ISODate(" + x + ")" + rest) == x + " " + Gsub(ISODate, rest)
  {
    var s := "ISODate(" + x + ")" + rest;
    assert s[..8] == "ISODate(";
    assert s[8..] == x + ")" + rest;
    LazyCaptureOf(x, rest);
    assert s[8..8 + |x|] == x;
    assert s[8 + |x| + 1..] == rest;
  }

  /** `Timestamp(x)` becomes `[x]` for a one-line `x` without `)`. */
  lemma TimestampUnwrapped(x: string, rest: string)
    requires x != [] && '\n' !in x && ')' !in x
    ensures Gsub(Timestamp, "Timestamp(" + x + ")" + rest) == "[" + x + "]" + Gsub(Timestamp, rest)
  {
    var s := "Timestamp(" + x + ")" + rest;
    assert s[..10] == "Timestamp(";
    assert s[10..] == x + ")" + rest;
    LazyCaptureOf(x, rest);
    assert s[10..10 + |x|] == x;
    assert s[10 + |x| + 1..] == rest;
  }

  /** Text before any character that could open the wrapper passes through a substitution untouched. */
  lemma {:induction false} GsubPrefix(w: Wrapper, p: string, s: string)
    requires Opening(w)[0] !in p
    ensures Gsub(w, p + s) == p + Gsub(w, s)
    decreases |p|
  {
    if p == [] {
      assert p + s == s;
    } else {
      var t := p + s;
      assert t[0] == p[0] && t[1..] == p[1..] + s;
      assert !StartsWith(t, Opening(w)) by {
        NotStartsWith(t, Opening(w), 0);
      }
      GsubPrefix(w, p[1..], s);
      ConcatAssoc([p[0]], p[1..], Gsub(w, s));
      assert [p[0]] + p[1..] == p;
    }
  }

  /** A wrapped value in the middle of the output: `p`, then `opening x)`, then `q`. */
  lemma Regroup(p: string, opening: string, x: string, q: string)
    ensures p + (opening + x + ")" + q) == p + opening + x + ")" + q
    ensures |opening| >= 5 ==> p + opening + x + ")" + q != "null\n"
  {
    ConcatAssoc(p, opening + x + ")", q);
    ConcatAssoc(p, opening + x, ")");
    ConcatAssoc(p, opening, x);
    assert |p + opening + x + ")" + q| == |p| + |opening| + |x| + 1 + |q|;
  }

  /**
   * An `ObjectId(x)` anywhere in the output reaches JSON.parse as the bare `x`, when what
   * precedes it holds no `O` and nothing else is wrapped.
   */
  lemma NormalizeObjectId(p: string, x: string, q: string)
    requires 'O' !in p && ')' !in x && !Contains(q, "ObjectId(")
    requires !Contains(p + x + q, "ISODate(") && !Contains(p + x + q, "Timestamp(")
    ensures Normalize(p + "ObjectId(" + x + ")" + q) == p + x + q
  {
    var u := "ObjectId(" + x + ")" + q;
    Regroup(p, "ObjectId(", x, q);
    assert Gsub(ObjectId, u) == x + q by {
      ObjectIdUnwrapped(x, q);
      GsubUnchanged(ObjectId, q);
    }
    GsubPrefix(ObjectId, p, u);
    ConcatAssoc(p, x, q);
    GsubUnchanged(ISODate, p + x + q);
    GsubUnchanged(Timestamp, p + x + q);
  }

  /**
   * An `ISODate(x)` anywhere in the output reaches JSON.parse as `x ` (the value and a
   * space), when what precedes it holds no `I` and nothing else is wrapped.
   */
  lemma NormalizeISODate(p: string, x: string, q: string)
    requires 'I' !in p && x != [] && '\n' !in x && ')' !in x
    requires !Contains(p + "ISODate(" + x + ")" + q, "ObjectId(") && !Contains(q, "ISODate(")
    requires !Contains(p + x + " " + q, "Timestamp(")
    ensures Normalize(p + "ISODate(" + x + ")" + q) == p + x + " " + q
  {
    var s := p + "ISODate(" + x + ")" + q;
    var u := "ISODate(" + x + ")" + q;
    Regroup(p, "ISODate(", x, q);
    GsubUnchanged(ObjectId, s);
    assert Gsub(ISODate, u) == x + " " + q by {
      ISODateUnwrapped(x, q);
      GsubUnchanged(ISODate, q);
    }
    GsubPrefix(ISODate, p, u);
    ConcatAssoc(p, x + " ", q);
    ConcatAssoc(p, x, " ");
    GsubUnchanged(Timestamp, p + x + " " + q);
  }

  /**
   * A `Timestamp(x)` anywhere in the output reaches JSON.parse as the array `[x]`, when
   * what precedes it holds no `T` and nothing else is wrapped.
   */
  lemma NormalizeTimestamp(p: string, x: string, q: string)
    requires 'T' !in p && x != [] && '\n' !in x && ')' !in x
    requires !Contains(p + "Timestamp(" + x + ")" + q, "ObjectId(")
    requires !Contains(p + "Timestamp(" + x + ")" + q, "ISODate(")
    requires !Contains(q, "Timestamp(")
    ensures Normalize(p + "Timestamp(" + x + ")" + q) == p + "[" + x + "]" + q
  {
    var s := p + "Timestamp(" + x + ")" + q;
    var u := "Timestamp(" + x + ")" + q;
    var t := "[" + x + "]";
    Regroup(p, "Timestamp(", x, q);
    GsubUnchanged(ObjectId, s);
    GsubUnchanged(ISODate, s);
    assert Gsub(Timestamp, u) == t + q by {
      TimestampUnwrapped(x, q);
      GsubUnchanged(Timestamp, q);
    }
    GsubPrefix(Timestamp, p, u);
    ConcatAssoc(p, t, q);
    ConcatAssoc(p, "[" + x, "]");
    ConcatAssoc(p, "[", x);
  }

  /** The shell's empty reply becomes the empty object. */
  lemma NullBecomesEmptyObject()
    ensures Normalize("null\n") == "{}"
  {
    assert !Contains("{}", "ObjectId(") && !Contains("{}", "ISODate(") && !Contains("{}", "Timestamp(");
    GsubUnchanged(ObjectId, "{}");
    GsubUnchanged(ISODate, "{}");
    GsubUnchanged(Timestamp, "{}");
  }

  /** Text with none of the three wrappers passes through unchanged. */
  lemma PlainTextUnchanged(s: string)
    requires s != "null\n"
    requires !Contains(s, "ObjectId(") && !Contains(s, "ISODate(") && !Contains(s, "Timestamp(")
    ensures Normalize(s) == s
  {
    GsubUnchanged(ObjectId, s);
    GsubUnchanged(ISODate, s);
    GsubUnchanged(Timestamp, s);
  }

  // ---------------------------------------------------------------- mongo_command

  /** What `mongo_command` returns (or raises) once the loop has ended. */
  function Finish(json: bool, exit: Exit): Returned {
    match exit
    case Raised(m) => ExecutionFailure(m)
    case Output(s) => if json then ParseInput(Normalize(s)) else Raw(s)
    case Unset => if json then NilReceiver else RawNil
  }

  /**
   * `mongo_command`: wrap the command, build the argument vector, run the retry
   * loop, then return the raw output or the text for JSON.parse. With a String budget
   * the first failure reaches the guard, which raises TypeError.
   */
  method MongoCommand(command: string, arg: OptionsArg, rcText: string, outcome: nat -> Attempt)
    returns (args: seq<string>, result: Returned, attempts: nat, sleeps: seq<nat>)
    ensures var o := Resolve(arg);
            ParseArgs(args) == Some(Argv(o.db.GetOr("admin"), o.host, EvalText(command, o, rcText)))
    ensures var o := Resolve(arg);
            o.retries.Count? ==>
              var run := Retry(o.retries.n, outcome);
              attempts == run.attempts && sleeps == run.sleeps && result == Finish(o.json, run.exit)
    ensures var o := Resolve(arg);
            o.retries.Text? ==>
              attempts == 1 && sleeps == []
              && result == if outcome(0).Ran? then Finish(o.json, Output(outcome(0).stdout)) else BudgetTypeError
  {
    var o := Resolve(arg);
    var text := command;
    if o.json {
      text := "printjson(" + text + ")";
    }
    if o.rc {
      text := rcText + "; " + text;
    }
    args := ["--quiet"];
    args := args + [o.db.GetOr("admin")];
    if o.host.Some? {
      args := args + ["--host", o.host.value];
    }
    args := args + ["--eval", text];
    var exit;
    match o.retries {
      case Count(n) =>
        exit, attempts, sleeps := RetryLoop(n, outcome);
      case Text(_) =>
        attempts, sleeps := 1, [];
        if outcome(0).Failed? {
          result := BudgetTypeError;
          return;
        }
        exit := Output(outcome(0).stdout);
    }
    match exit {
      case Raised(m) =>
        result := ExecutionFailure(m);
      case Output(s) =>
        if o.json {
          result := ParseAsJson(Some(s));
        } else {
          result := Raw(s);
        }
      case Unset =>
        if o.json {
          result := ParseAsJson(None);
        } else {
          result := RawNil;
        }
    }
  }

  /**
   * How a caller of `mongo_command` sees the result, given the `value` that JSON.parse (or
   * the raw text) yields: that value, Puppet::ExecutionFailure, or NoMethodError on nil
   * (`gsub!` in parse_as_json; `strip` at the callers that ask for raw text).
   */
  function Delivered<T>(r: Returned, value: T): (reply: Reply<T>)
    ensures reply.Answer? <==> r.Raw? || r.ParseInput?
    ensures reply.ExecFailure? <==> r.ExecutionFailure?
    ensures reply.ExecFailure? ==> reply.message == r.message
  {
    match r
    case Raw(_) => Answer(value)
    case ParseInput(_) => Answer(value)
    case ExecutionFailure(m) => ExecFailure(m)
    case RawNil => OtherFailure("undefined method `strip' for nil")
    case NilReceiver => OtherFailure("undefined method `gsub!' for nil")
    case BudgetTypeError => OtherFailure("String can't be coerced into Integer")
  }

  /**
   * With no retries the guard `2 <= 2**0` fails at once: no failure is ever re-raised, and
   * a failed first attempt ends the loop with `output` unset.
   */
  lemma NoReraiseWithoutRetries(outcome: nat -> Attempt)
    ensures !Retry(0, outcome).exit.Raised?
    ensures outcome(0).Failed? ==> Retry(0, outcome) == Run(Unset, 1, [])
  {
    assert Pow2(0) == 1;
  }

  /**
   * The user provider's create passes the database name where the options hash
   * belongs: unless the name contains "db", "host" or "retries", the command runs in
   * `admin` on the default host with no retries.
   */
  lemma PlainArgumentRunsInAdmin(database: string)
    requires !Contains(database, "db") && !Contains(database, "host") && !Contains(database, "retries")
    ensures Resolve(Plain(database)) == Defaults
  {
  }

  /**
   * A database name containing "retries" makes the budget the String "retries": a
   * failed create then raises TypeError from the guard, not Puppet::ExecutionFailure.
   */
  lemma PlainArgumentRetriesIsText(database: string)
    requires Contains(database, "retries")
    ensures Resolve(Plain(database)).retries == Text("retries")
  {
  }

  // ---------------------------------------------------------------- the budget finding

  /**
   * As written: once the budget is spent the rescue falls through, `output` stays
   * nil, and a JSON caller reaches `parse_as_json(nil)`, which raises NoMethodError
   * rather than Puppet::ExecutionFailure. With the default `retries` of 0 this is
   * what any unreachable host produces.
   */
  lemma SpentBudgetYieldsNilReceiver(outcome: nat -> Attempt)
    requires outcome(0).Failed?
    ensures Finish(true, Retry(0, outcome).exit) == NilReceiver
  {
  }

  /** The loop as evidently intended: a failure left when the budget is spent is re-raised. */
  function RetryReraising(retries: nat, outcome: nat -> Attempt): (run: Run)
    ensures run.exit != Unset
    ensures run.attempts == Retry(retries, outcome).attempts
    ensures run.exit.Raised? && Retryable(run.exit.message) ==> run.attempts == retries + 1
  {
    var run := Retry(retries, outcome);
    RetryShape(retries, outcome);
    match run.exit
    case Unset => Run(Raised(outcome(run.attempts - 1).message), run.attempts, run.sleeps)
    case _ => run
  }

  /** With re-raising, an unreachable host surfaces as Puppet::ExecutionFailure after `retries + 1` attempts. */
  lemma ReraisingSurfacesFailure(retries: nat, outcome: nat -> Attempt, m: string)
    requires Retryable(m)
    requires forall i :: outcome(i) == Failed(m)
    ensures Finish(true, RetryReraising(retries, outcome).exit) == ExecutionFailure(m)
    ensures RetryReraising(retries, outcome).attempts == retries + 1
  {
    PersistentFailureExhaustsBudget(retries, outcome, m);
  }

  // ---------------------------------------------------------------- version and auth

  /** A line of `v` starts at `i` and reads `2.4.`. */
  predicate VersionLineAt(v: string, i: int) {
    0 <= i <= |v| && (i == 0 || v[i - 1] == '\n') && StartsWith(v[i..], "2.4.")
  }

  function Mongo24From(v: string, i: nat): bool
    requires i <= |v|
    decreases |v| - i
  {
    VersionLineAt(v, i) || (i < |v| && Mongo24From(v, i + 1))
  }

  /** `mongo_24?`: `v[/^2\.4\./]` is not nil; `^` anchors at the start of any line. */
  function IsMongo24(v: string): bool {
    Mongo24From(v, 0)
  }

  lemma {:induction false} Mongo24FromIff(v: string, i: nat)
    requires i <= |v|
    ensures Mongo24From(v, i) <==> exists j :: i <= j <= |v| && VersionLineAt(v, j)
    decreases |v| - i
  {
    if i < |v| {
      Mongo24FromIff(v, i + 1);
    }
  }

  lemma Mongo24Iff(v: string)
    ensures IsMongo24(v) <==> exists j :: VersionLineAt(v, j)
  {
    Mongo24FromIff(v, 0);
  }

  /** `auth_enabled?`: the printed setting, stripped, is exactly "enabled". */
  predicate AuthEnabled(output: string) {
    Strip(output) == "enabled"
  }

  /** Any whitespace around "enabled" is accepted ... */
  lemma AuthEnabledPadded(w1: string, w2: string)
    requires AllSpace(w1) && AllSpace(w2)
    ensures AuthEnabled(w1 + "enabled" + w2)
  {
    StripPadded(w1, "enabled", w2);
  }

  /** ... and nothing else is. */
  lemma AuthEnabledShape(output: string)
    requires AuthEnabled(output)
    ensures var a := LeadingSpaces(output);
            a + 7 <= |output| && output[a..a + 7] == "enabled"
            && AllSpace(output[..a]) && AllSpace(output[a + 7..])
  {
    StripShape(output);
  }

  /**
   * `@@mongo_version`: the stripped output of `db.version()`, computed on first use and
   * then reused. `||=` assigns only once the right-hand side has a value, so a query
   * that raises leaves the variable unset and the next call queries again.
   */
  class VersionCache {
    var version: Option<string>

    constructor ()
      ensures version == None
    {
      version := None;
    }

    /**
     * `reply` is what `mongo_command('db.version()', json: false)` delivers; `queried`
     * says whether the command ran. A failure raises out of `mongo_version` with its
     * message (with no retries, NoMethodError on `nil.strip`).
     */
    method MongoVersion(reply: Reply<string>) returns (v: Result<string, string>, queried: bool)
      modifies this
      ensures old(version).Some? ==> v == Ok(old(version).value) && !queried && version == old(version)
      ensures old(version).None? && reply.Answer? ==>
                queried && v == Ok(Strip(reply.value)) && version == Some(Strip(reply.value))
      ensures old(version).None? && !reply.Answer? ==>
                queried && v == Err(reply.message) && version == None
    {
      if version.Some? {
        v, queried := Ok(version.value), false;
        return;
      }
      queried := true;
      if !reply.Answer? {
        v := Err(reply.message);
        return;
      }
      var stripped := Strip(reply.value);
      version := Some(stripped);
      v := Ok(stripped);
    }
  }

  /** The version is read once: a second call returns the first answer whatever the server would say now. */
  method VersionReadOnce(first: string, later: Reply<string>) returns (v1: Result<string, string>, v2: Result<string, string>)
    ensures v1 == Ok(Strip(first)) && v2 == v1
  {
    var cache := new VersionCache();
    var q1, q2;
    v1, q1 := cache.MongoVersion(Answer(first));
    v2, q2 := cache.MongoVersion(later);
  }

  /** A failed read is not remembered: the next call queries the server again and takes its answer. */
  method VersionRetriedAfterFailure(first: Reply<string>, later: string)
    returns (v1: Result<string, string>, v2: Result<string, string>, requeried: bool)
    requires !first.Answer?
    ensures v1 == Err(first.message)
    ensures requeried && v2 == Ok(Strip(later))
  {
    var cache := new VersionCache();
    var q1;
    v1, q1 := cache.MongoVersion(first);
    v2, requeried := cache.MongoVersion(Answer(later));
  }
}
