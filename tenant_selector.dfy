/** `ConsoleKit::TenantSelector`: shows a numbered menu of the configured tenants, reads a
    line, accepts only an unsigned decimal number in [0, N], and tries at most three times.
    Standard input is the sequence of lines it will deliver (`None` is end of input); what is
    printed is the sequence of output events. */
module TenantSelector {
  import opened Ruby
  import opened Tenants
  import opened Output

  const RETRY_LIMIT: nat := 3
  const DEFAULT_SELECTION: string := "1"

  const MENU_HEADER: string := "Multiple tenants detected. Please choose one:"
  const NO_TENANT_LINE: string := "  0. Load without tenant (no tenant configuration)"
  const PROMPT_MESSAGE: string :=
    "\nEnter the number of the tenant you want (or press Enter for default '1'): "
  const INVALID_INPUT: string := "Invalid input. Please enter a number."

  /** The line `gets` returns on its i-th call; past the last line it keeps returning nil. */
  function LineAt(stdin: seq<Option<string>>, i: nat): Option<string> {
    if i < |stdin| then stdin[i] else None
  }

  /** One menu line: `"  #{index + 1}. #{key} (partner: #{tenant_partner(key)})"`. */
  function MenuLine(t: Registry, i: nat): Event
    requires i < |t|
  {
    Print(Info, "  " + NatToString(i + 1) + ". " + t[i].key + " (partner: " + PartnerLabel(t, t[i].key) + ")")
  }

  /** `print_tenant_selection_menu`: a header, the "0" line, then one line per tenant in
      insertion order. */
  function Menu(t: Registry): (menu: seq<Event>)
    ensures |menu| == |t| + 2
    ensures menu[0] == Print(Header, MENU_HEADER)
    ensures menu[1] == Print(Info, NO_TENANT_LINE)
    ensures forall i :: 0 <= i < |t| ==> menu[i + 2] == MenuLine(t, i)
  {
    var lines := TenantLines(t);
    var menu := [Print(Header, MENU_HEADER), Print(Info, NO_TENANT_LINE)] + lines;
    assert forall i :: 0 <= i < |t| ==> menu[i + 2] == lines[i];
    menu
  }

  /** The menu lines of the tenants, one per tenant in insertion order. */
  function TenantLines(t: Registry): (lines: seq<Event>)
    ensures |lines| == |t|
    ensures forall i :: 0 <= i < |t| ==> lines[i] == MenuLine(t, i)
  {
    seq(|t|, i requires 0 <= i < |t| => MenuLine(t, i))
  }

  /** `read_input_with_default` after the prompt: the chomped, stripped line, or "1" for a
      blank line or end of input. */
  function ReadInputWithDefault(line: Option<string>): (input: string)
    ensures input != []
  {
    match line
    case None => DEFAULT_SELECTION
    case Some(s) => if Strip(Chomp(s)) == [] then DEFAULT_SELECTION else Strip(Chomp(s))
  }

  /** `valid_integer?`: the whole input matches `/\A\d+\z/`. */
  predicate ValidInteger(input: string) {
    input != [] && AllDigits(input)
  }

  /** `valid_selection_index?`: `index.between?(0, tenants.size)`. */
  predicate ValidSelectionIndex(t: Registry, index: int) {
    0 <= index <= |t|
  }

  function RangeWarning(t: Registry): string {
    "Selection must be between 0 and " + NatToString(|t|) + "."
  }

  /** The outcome of one `parse_user_selection` on the input it read: the accepted index
      (None for nil) and the warning it printed, if any. */
  datatype Parsed = Parsed(selection: Option<nat>, warnings: seq<Event>)

  /** `parse_user_selection` after the read: a non-number or an out-of-range number is
      rejected with a warning; otherwise the number is the selection. */
  function ParseUserSelection(t: Registry, input: string): (p: Parsed)
    ensures p.selection.Some? <==> ValidInteger(input) && DigitsValue(input) <= |t|
    ensures p.selection.Some? ==> p.selection.value == DigitsValue(input) && p.warnings == []
    ensures !ValidInteger(input) ==> p.warnings == [Print(Warning, INVALID_INPUT)]
    ensures ValidInteger(input) && p.selection.None? ==> p.warnings == [Print(Warning, RangeWarning(t))]
  {
    if !ValidInteger(input) then Parsed(None, [Print(Warning, INVALID_INPUT)])
    else
      var index := DigitsValue(input);
      if !ValidSelectionIndex(t, index) then Parsed(None, [Print(Warning, RangeWarning(t))])
      else Parsed(Some(index), [])
  }

  /** On an unsigned decimal input, the `input.to_i` of the source is the number the digits
      denote, so the selection is that number. */
  lemma SelectionIsToI(t: Registry, input: string)
    requires ParseUserSelection(t, input).selection.Some?
    ensures ParseUserSelection(t, input).selection.value == ToI(input)
  {
    ToIOfDigits(input);
  }

  /** `resolve_selection`: 0 means no tenant, i means the i-th key in insertion order. */
  function ResolveSelection(t: Registry, index: nat): (key: Option<Key>)
    requires index <= |t|
    ensures index == 0 <==> key.None?
    ensures index > 0 ==> key == Some(Keys(t)[index - 1])
  {
    if index == 0 then None else Some(Keys(t)[index - 1])
  }

  /** What a run of the selector returns, prints and reads. */
  datatype Run = Run(result: Option<Key>, events: seq<Event>, consumed: nat)

  /** What the first n calls of `parse_user_selection` conclude: the i-th reads line i of
      standard input, or the default once input is exhausted. Each outcome depends on its line
      alone, so the outcomes can be listed before the attempts consume them. */
  function Parses(t: Registry, stdin: seq<Option<string>>, n: nat): (parsed: seq<Parsed>)
    ensures |parsed| == n
    ensures forall i :: 0 <= i < n ==> parsed[i] == ParseUserSelection(t, ReadInputWithDefault(LineAt(stdin, i)))
  {
    seq(n, i requires 0 <= i < n => ParseUserSelection(t, ReadInputWithDefault(LineAt(stdin, i))))
  }

  /** Every accepted selection is a menu number. */
  predicate InRange(t: Registry, parsed: seq<Parsed>) {
    forall i :: 0 <= i < |parsed| && parsed[i].selection.Some? ==> parsed[i].selection.value <= |t|
  }

  lemma ParsesInRange(t: Registry, stdin: seq<Option<string>>, n: nat)
    ensures InRange(t, Parses(t, stdin, n))
  {
  }

  /** What one attempt prints: the menu, the prompt, then the warnings of the parse. */
  function Shown(t: Registry, warnings: seq<Event>): (shown: seq<Event>)
    ensures |shown| == |t| + 3 + |warnings|
    ensures shown[..|t| + 2] == Menu(t) && shown[|t| + 2] == Print(Prompt, PROMPT_MESSAGE)
    ensures shown[|t| + 3..] == warnings
  {
    Menu(t) + [Print(Prompt, PROMPT_MESSAGE)] + warnings
  }

  /** `attempt_selection(retries_left)`, the next read being the one whose outcome is
      `parsed[pos]`: the menu, the prompt and any warning are printed on every attempt; an
      accepted index (0 included, being truthy) is resolved, a rejected one costs one attempt. */
  function AttemptSelection(t: Registry, parsed: seq<Parsed>, pos: nat, retriesLeft: nat): (r: Run)
    requires InRange(t, parsed) && pos + retriesLeft <= |parsed|
    ensures r.consumed <= retriesLeft
    ensures r.result.Some? ==> r.result.value in Keys(t)
    ensures retriesLeft > 0 ==> 1 <= r.consumed
    decreases retriesLeft
  {
    if retriesLeft == 0 then Run(None, [], 0)
    else
      var p := parsed[pos];
      var shown := Shown(t, p.warnings);
      if p.selection.Some? then Run(ResolveSelection(t, p.selection.value), shown, 1)
      else
        var r := AttemptSelection(t, parsed, pos + 1, retriesLeft - 1);
        Run(r.result, shown + r.events, r.consumed + 1)
  }

  /** `select`: three attempts from the first line of input on. */
  function Select(t: Registry, stdin: seq<Option<string>>): (r: Run)
    ensures 1 <= r.consumed <= RETRY_LIMIT
    ensures r.result.Some? ==> r.result.value in Keys(t)
  {
    ParsesInRange(t, stdin, RETRY_LIMIT);
    AttemptSelection(t, Parses(t, stdin, RETRY_LIMIT), 0, RETRY_LIMIT)
  }

  // ---------------------------------------------------------------------------
  // The selection is decided by the first accepted line among the first attempts

  /** If the outcome at pos + j is the first accepted one and there are attempts left for it,
      the selector resolves exactly that index after reading j + 1 lines. */
  lemma {:induction false} FirstAcceptedDecides(t: Registry, parsed: seq<Parsed>, pos: nat, retriesLeft: nat, j: nat)
    requires InRange(t, parsed) && pos + retriesLeft <= |parsed|
    requires j < retriesLeft
    requires forall i :: pos <= i < pos + j ==> parsed[i].selection.None?
    requires parsed[pos + j].selection.Some?
    ensures AttemptSelection(t, parsed, pos, retriesLeft).result == ResolveSelection(t, parsed[pos + j].selection.value)
    ensures AttemptSelection(t, parsed, pos, retriesLeft).consumed == j + 1
    decreases j
  {
    if j > 0 {
      assert parsed[pos].selection.None?;
      FirstAcceptedDecides(t, parsed, pos + 1, retriesLeft - 1, j - 1);
    }
  }

  /** If every outcome within the attempt budget is a rejection, the selector gives up with
      nil after reading exactly that many lines. */
  lemma {:induction false} AllRejectedGivesNil(t: Registry, parsed: seq<Parsed>, pos: nat, retriesLeft: nat)
    requires InRange(t, parsed) && pos + retriesLeft <= |parsed|
    requires forall i :: pos <= i < pos + retriesLeft ==> parsed[i].selection.None?
    ensures AttemptSelection(t, parsed, pos, retriesLeft).result == None
    ensures AttemptSelection(t, parsed, pos, retriesLeft).consumed == retriesLeft
    decreases retriesLeft
  {
    if retriesLeft > 0 {
      assert parsed[pos].selection.None?;
      AllRejectedGivesNil(t, parsed, pos + 1, retriesLeft - 1);
    }
  }

  // ---------------------------------------------------------------------------
  // What the selector does with particular inputs

  /** A line holding text with no whitespace at either end, then "\n", reads as that text. */
  lemma ReadTrimmed(w: string)
    requires Trimmed(w)
    ensures ReadInputWithDefault(Some(w + "\n")) == w
  {
    var line := w + "\n";
    assert line[|line| - 2] == w[|w| - 1];
    assert line[..|line| - 1] == w;
    assert Chomp(line) == w;
    StripTrimmed(w);
  }

  /** A line holding only `digits` and its line ending reads as those digits. */
  lemma ReadDigits(line: string, digits: string)
    requires digits != [] && AllDigits(digits)
    requires line == digits + "\n"
    ensures ReadInputWithDefault(Some(line)) == digits
  {
    assert line[..|line| - 1] == digits;
    assert !IsStripSpace(digits[0]) && !IsStripSpace(digits[|digits| - 1]);
    assert |line| < 2 || line[|line| - 2] != '\r' by {
      if |line| >= 2 { assert line[|line| - 2] == digits[|digits| - 1]; }
    }
    assert Chomp(line) == digits;
    assert LStrip(digits) == digits;
    assert RStrip(digits) == digits;
  }

  /** Pressing Enter on a blank line, or end of input, selects the first tenant. */
  lemma BlankLineSelectsFirst(t: Registry, stdin: seq<Option<string>>)
    requires |t| >= 1
    requires LineAt(stdin, 0).None? || AllStripSpace(LineAt(stdin, 0).value)
    ensures Select(t, stdin).result == Some(Keys(t)[0])
    ensures Select(t, stdin).consumed == 1
  {
    if LineAt(stdin, 0).Some? {
      ChompStripEmptyIff(LineAt(stdin, 0).value);
    }
    assert ReadInputWithDefault(LineAt(stdin, 0)) == "1";
    assert DigitsValue("1") == 1 by { assert "1"[..0] == []; }
    var parsed := Parses(t, stdin, RETRY_LIMIT);
    FirstAcceptedDecides(t, parsed, 0, RETRY_LIMIT, 0);
  }

  /** The number printed in front of a tenant on the menu selects that tenant. */
  lemma MenuNumberSelects(t: Registry, stdin: seq<Option<string>>, i: nat)
    requires i < |t|
    requires LineAt(stdin, 0) == Some(NatToString(i + 1) + "\n")
    ensures Select(t, stdin).result == Some(Keys(t)[i])
  {
    var s := NatToString(i + 1);
    NatToStringRoundTrip(i + 1);
    ReadDigits(s + "\n", s);
    var parsed := Parses(t, stdin, RETRY_LIMIT);
    FirstAcceptedDecides(t, parsed, 0, RETRY_LIMIT, 0);
  }

  /** Entering 0 declines at once: no tenant, and no further line is read. */
  lemma ZeroDeclines(t: Registry, stdin: seq<Option<string>>)
    requires LineAt(stdin, 0) == Some("0\n")
    ensures Select(t, stdin).result == None
    ensures Select(t, stdin).consumed == 1
  {
    ZeroParses(t);
    FirstLineAccepted(t, stdin, 0);
  }

  /** A first line that is accepted decides the selection after one read. */
  lemma FirstLineAccepted(t: Registry, stdin: seq<Option<string>>, k: nat)
    requires ParseUserSelection(t, ReadInputWithDefault(LineAt(stdin, 0))).selection == Some(k)
    ensures k <= |t|
    ensures Select(t, stdin).result == ResolveSelection(t, k)
    ensures Select(t, stdin).consumed == 1
  {
    var parsed := Parses(t, stdin, RETRY_LIMIT);
    assert parsed[0].selection == Some(k);
    FirstAcceptedDecides(t, parsed, 0, RETRY_LIMIT, 0);
  }

  lemma ZeroParses(t: Registry)
    ensures ParseUserSelection(t, ReadInputWithDefault(Some("0\n"))) == Parsed(Some(0), [])
  {
    ReadDigits("0\n", "0");
    assert DigitsValue("0") == 0 by { assert "0"[..0] == []; }
  }

  /** Input that is not a plain unsigned number is rejected with a warning each time; after
      three such lines the selector returns nil, having shown the menu three times. */
  lemma NonNumbersExhaustRetries(t: Registry, stdin: seq<Option<string>>)
    requires forall i: nat :: i < RETRY_LIMIT ==> !ValidInteger(ReadInputWithDefault(LineAt(stdin, i)))
    ensures Select(t, stdin).result == None
    ensures Select(t, stdin).consumed == RETRY_LIMIT
    ensures var rejected := Shown(t, [Print(Warning, INVALID_INPUT)]);
      Select(t, stdin).events == rejected + rejected + rejected
  {
    var parsed := Parses(t, stdin, RETRY_LIMIT);
    AllRejectedGivesNil(t, parsed, 0, RETRY_LIMIT);
    var rejected := Shown(t, [Print(Warning, INVALID_INPUT)]);
    RejectedAttempt(t, parsed, 2, 1);
    RejectedAttempt(t, parsed, 1, 2);
    RejectedAttempt(t, parsed, 0, 3);
    assert AttemptSelection(t, parsed, 3, 0).events == [];
    assert rejected + [] == rejected;
    AppendAssociative(rejected, rejected, rejected);
  }

  /** A rejected attempt prints the menu, the prompt and the invalid-input warning, then the
      selector carries on with one attempt fewer. */
  lemma RejectedAttempt(t: Registry, parsed: seq<Parsed>, pos: nat, retriesLeft: nat)
    requires InRange(t, parsed) && pos + retriesLeft <= |parsed| && retriesLeft > 0
    requires parsed[pos] == Parsed(None, [Print(Warning, INVALID_INPUT)])
    ensures AttemptSelection(t, parsed, pos, retriesLeft).events
         == Shown(t, [Print(Warning, INVALID_INPUT)]) + AttemptSelection(t, parsed, pos + 1, retriesLeft - 1).events
  {
  }

  lemma AppendAssociative<T>(a: seq<T>, b: seq<T>, c: seq<T>)
    ensures a + (b + c) == a + b + c
  {
  }

  /** "invalid" then "1": the first line costs one attempt and a warning, the menu is shown
      again, and the second line picks the first tenant. */
  lemma InvalidThenValid(t: Registry, stdin: seq<Option<string>>)
    requires |t| >= 1
    requires LineAt(stdin, 0) == Some("invalid\n") && LineAt(stdin, 1) == Some("1\n")
    ensures Select(t, stdin).result == Some(Keys(t)[0])
    ensures Select(t, stdin).events == Shown(t, [Print(Warning, INVALID_INPUT)]) + Shown(t, [])
  {
    var parsed := Parses(t, stdin, RETRY_LIMIT);
    InvalidThenValidParses(t, stdin);
    var second := AttemptSelection(t, parsed, 1, 2);
    assert second == Run(Some(Keys(t)[0]), Shown(t, []), 1);
  }

  lemma InvalidThenValidParses(t: Registry, stdin: seq<Option<string>>)
    requires |t| >= 1
    requires LineAt(stdin, 0) == Some("invalid\n") && LineAt(stdin, 1) == Some("1\n")
    ensures Parses(t, stdin, RETRY_LIMIT)[0] == Parsed(None, [Print(Warning, INVALID_INPUT)])
    ensures Parses(t, stdin, RETRY_LIMIT)[1] == Parsed(Some(1), [])
  {
    ReadWord();
    ReadDigits("1\n", "1");
    assert DigitsValue("1") == 1 by { assert "1"[..0] == []; }
    assert ParseUserSelection(t, "1") == Parsed(Some(1), []);
  }

  lemma ReadWord()
    ensures ReadInputWithDefault(Some("invalid\n")) == "invalid"
    ensures !ValidInteger("invalid")
  {
    assert Chomp("invalid\n") == "invalid";
    assert LStrip("invalid") == "invalid";
    assert RStrip("invalid") == "invalid";
    assert !IsDigit("invalid"[0]);
  }

  /** A number above the tenant count is rejected with the range warning. */
  lemma OutOfRangeWarns(t: Registry, input: string)
    requires ValidInteger(input) && DigitsValue(input) > |t|
    ensures ParseUserSelection(t, input).selection.None?
    ensures ParseUserSelection(t, input).warnings
         == [Print(Warning, "Selection must be between 0 and " + NatToString(|t|) + ".")]
  {
  }

  /** A tenant without constants or without a partner code is listed as `(partner: N/A)`. */
  lemma MenuShowsNoPartner(t: Registry, i: nat)
    requires i < |t|
    requires ConstantsOf(t, t[i].key).None? || Get(ConstantsOf(t, t[i].key).value, PARTNER_CODE).Nil?
    ensures MenuLine(t, i) == Print(Info, "  " + NatToString(i + 1) + ". " + t[i].key + " (partner: N/A)")
  {
    assert PartnerLabel(t, t[i].key) == "N/A";
  }
}
