/** The console lines and the protocol-error message the middleware runner
    writes, rendered with the exact wording (spelling slips included) that
    callers and tests compare against. */
module Messages {

  /** The lines written with console.log; the ordinal is the 1-based step index. */
  datatype LogLine =
    | Executing(ordinal: nat, name: string)
    | Passing
    | Failed(name: string)

  predicate IsDigits(s: string) {
    forall i | 0 <= i < |s| :: '0' <= s[i] <= '9'
  }

  /** The number a string of decimal digits denotes. */
  function DigitsValue(s: string): nat
    requires IsDigits(s)
  {
    if s == [] then 0
    else DigitsValue(s[..|s| - 1]) * 10 + (s[|s| - 1] as int - '0' as int)
  }

  function Digit(d: nat): (c: char)
    requires d < 10
    ensures '0' <= c <= '9' && c as int - '0' as int == d
  {
    ('0' as int + d) as char
  }

  /** How a template literal renders a non-negative integer: its shortest
      decimal spelling. */
  function Decimal(n: nat): (r: string)
    ensures r != [] && IsDigits(r)
    ensures DigitsValue(r) == n
    ensures |r| > 1 ==> r[0] != '0'
    decreases n
  {
    if n < 10 then [Digit(n)]
    else
      var high := Decimal(n / 10);
      var r := high + [Digit(n % 10)];
      assert r[..|r| - 1] == high;
      r
  }

  /** `s` is `head`, then the decimal digits of `n`, then `tail`: reading
      the digits between `head` and `tail` gives back `n`. */
  predicate WritesNumber(s: string, head: string, n: nat, tail: string) {
    && |head| + |tail| < |s|
    && s[..|head|] == head
    && s[|s| - |tail|..] == tail
    && IsDigits(s[|head|..|s| - |tail|])
    && DigitsValue(s[|head|..|s| - |tail|]) == n
  }

  /** A number rendered between a head and a tail reads back from the text. */
  lemma ReadBack(head: string, n: nat, tail: string)
    ensures WritesNumber(head + Decimal(n) + tail, head, n, tail)
  {
    var s := head + Decimal(n) + tail;
    assert s[..|head|] == head;
    assert s[|s| - |tail|..] == tail;
    assert s[|head|..|s| - |tail|] == Decimal(n);
  }

  /** The text console.log writes for a line. */
  function LogText(line: LogLine): string {
    match line
    case Executing(k, name) =>
      "Middlewarizer: Exexuting the " + Decimal(k) + "th middleware '" + name + "'..."
    case Passing =>
      "Middlewarizer: Passing wihout error to the next middleware"
    case Failed(name) =>
      "Middlewarizer: Failed to pass middleware '" + name + "'. Stopped middleware stack."
  }

  /** Reading back a number followed by a tail made of three parts. */
  lemma ReadBackBeforeParts(head: string, n: nat, a: string, b: string, c: string)
    ensures WritesNumber(head + Decimal(n) + a + b + c, head, n, a + b + c)
  {
    assert head + Decimal(n) + a + b + c == head + Decimal(n) + (a + b + c);
    ReadBack(head, n, a + b + c);
  }

  /** What lies between a head and a tail. */
  lemma Between(head: string, mid: string, tail: string)
    ensures var s := head + mid + tail;
            |head| + |tail| <= |s| && s[|head|..|s| - |tail|] == mid
  {
    var s := head + mid + tail;
    assert s[|head|..|s| - |tail|] == mid;
  }

  /** The "executing" line names the step's ordinal, which reads back from
      the text, followed by the step's name. */
  lemma ExecutingTextReadsBack(k: nat, name: string)
    ensures WritesNumber(LogText(Executing(k, name)), "Middlewarizer: Exexuting the ", k,
                         "th middleware '" + name + "'...")
  {
    ReadBackBeforeParts("Middlewarizer: Exexuting the ", k, "th middleware '", name, "'...");
  }

  /** The "failed" line names the step. */
  lemma FailedTextReadsBack(name: string)
    ensures var r := LogText(Failed(name));
            var head, tail := "Middlewarizer: Failed to pass middleware '", "'. Stopped middleware stack.";
            |head| + |tail| <= |r| && r[|head|..|r| - |tail|] == name
  {
    Between("Middlewarizer: Failed to pass middleware '", name, "'. Stopped middleware stack.");
  }

  /** The console.warn line for a non-last step that did not call next. */
  function WarningText(ordinal: nat): string {
    "Middlewarizer Warning: Next has not been called inside your " + Decimal(ordinal)
    + "th function. You can mute this warning by setting 'muteNoNextCallWarning'"
  }

  /** The warning names the step's ordinal, which reads back from the text. */
  lemma WarningTextReadsBack(ordinal: nat)
    ensures WritesNumber(WarningText(ordinal), "Middlewarizer Warning: Next has not been called inside your ",
                         ordinal, "th function. You can mute this warning by setting 'muteNoNextCallWarning'")
  {
    ReadBack("Middlewarizer Warning: Next has not been called inside your ", ordinal,
             "th function. You can mute this warning by setting 'muteNoNextCallWarning'");
  }

  /** The message of the error thrown when a step calls next more than once. */
  function MultipleNextText(ordinal: nat, name: string): string {
    "Middlewarizer Error: Next has been called more than once inside your " + Decimal(ordinal)
    + "th function: " + name
  }

  /** The message names the step's ordinal, which reads back from the text,
      and ends with the step's name. */
  lemma MultipleNextTextReadsBack(ordinal: nat, name: string)
    ensures WritesNumber(MultipleNextText(ordinal, name),
                         "Middlewarizer Error: Next has been called more than once inside your ",
                         ordinal, "th function: " + name)
    ensures var r := MultipleNextText(ordinal, name);
            |name| <= |r| && r[|r| - |name|..] == name
  {
    var head := "Middlewarizer Error: Next has been called more than once inside your ";
    Between(head + Decimal(ordinal) + "th function: ", name, []);
    assert MultipleNextText(ordinal, name) + [] == MultipleNextText(ordinal, name);
    ReadBackBeforeParts(head, ordinal, "th function: ", name, []);
    assert "th function: " + name + [] == "th function: " + name;
  }
}
