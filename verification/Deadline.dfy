/** The deadline printer and the parser's deadline rules: days, hours and minutes, out and back. */
module Deadline {
  import opened Jobs
  import opened Numbers

  // ------------------------------------------------------------------------------------------
  // The printer
  // ------------------------------------------------------------------------------------------

  const MINUTE: nat := 60
  const HOUR: nat := 60 * 60
  const DAY: nat := 24 * 60 * 60

  function Print(d: nat): string {
    Decimal(d / 60 / 60 / 24) + ":" + TwoDigits(d / 60 / 60 % 24) + ":" + TwoDigits(d / 60 % 60)
  }

  // ------------------------------------------------------------------------------------------
  // The rules
  // ------------------------------------------------------------------------------------------

  const INT_MAX: int := 0x7fff_ffff

  predicate FitsInt(n: int) { -INT_MAX - 1 <= n <= INT_MAX }

  /** The deadline in seconds, an error that ends the parser, or none because the text ends before the line does. */
  datatype Outcome = Set(deadline: int) | Bad | Unset

  /** What came of a text, and whether every value computed on the way fits an int. */
  datatype Reading = Reading(outcome: Outcome, fits: bool)
  {
    function Also(b: bool): Reading { this.(fits := b && fits) }
  }

  /** The deadline from one to three components. */
  function Finish(dl: seq<int>): Outcome {
    if |dl| == 1 then Set(dl[0] * 60)
    else if |dl| == 2 then Set(dl[0] * 60 * 60 + dl[1] * 60)
    else if |dl| == 3 then Set(dl[0] * 24 * 60 * 60 + dl[1] * 60 * 60 + dl[2] * 60)
    else Bad
  }

  /** The products and sums of Finish, from left to right. */
  predicate FinishFits(dl: seq<int>) {
    if |dl| == 1 then FitsInt(dl[0] * 60)
    else if |dl| == 2 then
      FitsInt(dl[0] * 60) && FitsInt(dl[0] * 60 * 60) && FitsInt(dl[1] * 60) && FitsInt(dl[0] * 60 * 60 + dl[1] * 60)
    else if |dl| == 3 then
      && FitsInt(dl[0] * 24) && FitsInt(dl[0] * 24 * 60) && FitsInt(dl[0] * 24 * 60 * 60)
      && FitsInt(dl[1] * 60) && FitsInt(dl[1] * 60 * 60) && FitsInt(dl[0] * 24 * 60 * 60 + dl[1] * 60 * 60)
      && FitsInt(dl[2] * 60) && FitsInt(dl[0] * 24 * 60 * 60 + dl[1] * 60 * 60 + dl[2] * 60)
    else true
  }

  /** Nothing but blanks and a comment up to the end of the line. */
  predicate LineEnds(s: string) {
    s != [] && (s[0] == '\n' || (s[0] == '#' && '\n' in s) || ((s[0] == ' ' || s[0] == '\t') && LineEnds(s[1..])))
  }

  /** What the deadline rules make of a text: a number starts over, a colon and a number add a component, the end
      of the line computes the deadline, and any other character is passed over. */
  function Parse(s: string, dl: seq<int>): Reading
    decreases |s|
  {
    if s == [] then Reading(Unset, true)
    else if LineEnds(s) then Reading(Finish(dl), FinishFits(dl))
    else if IsDigit(s[0]) then
      var n := DigitRun(s); var v := Value(s[..n]);
      Parse(s[n..], [v]).Also(FitsInt(v))
    else if s[0] == ':' && |s| > 1 && IsDigit(s[1]) then
      var n := DigitRun(s[1..]); var v := Value(s[1..][..n]);
      if |dl| >= 3 then Reading(Bad, true) else Parse(s[1..][n..], dl + [v]).Also(FitsInt(v))
    else Parse(s[1..], dl)
  }

  /** The rule actions, on the parser's global variables. */
  class Parser {
    const dl: array<int>
    var dl_comp: nat
    var deadline: int

    constructor ()
      ensures Valid() && fresh(dl)
    {
      dl := new int[3];
      dl_comp, deadline := 0, 0;
    }

    ghost predicate Valid()
      reads this
    { dl.Length == 3 && dl_comp <= 3 }

    /** The components read so far. */
    ghost function Components(): seq<int>
      requires Valid()
      reads this, dl
    { dl[..dl_comp] }

    method OnNumber(text: string)
      requires Valid() && Digits(text)
      modifies `dl_comp, dl
      ensures Valid() && Components() == [Value(text)]
    {
      dl[0] := Value(text);
      dl_comp := 1;
    }

    method OnColonNumber(text: string) returns (ok: bool)
      requires Valid() && text != [] && Digits(text[1..])
      modifies `dl_comp, dl
      ensures Valid() && ok == (old(dl_comp) < 3)
      ensures Components() == if ok then old(Components()) + [Value(text[1..])] else old(Components())
    {
      if dl_comp >= 3 {
        return false;
      }
      dl[dl_comp] := Value(text[1..]);
      dl_comp := dl_comp + 1;
      return true;
    }

    method OnEndOfLine() returns (ok: bool)
      requires Valid()
      modifies `deadline
      ensures Finish(Components()) == if ok then Set(deadline) else Bad
      ensures !ok ==> deadline == old(deadline)
    {
      match dl_comp {
        case 1 => deadline := dl[0] * 60;
        case 2 => deadline := dl[0] * 60 * 60 + dl[1] * 60;
        case 3 => deadline := dl[0] * 24 * 60 * 60 + dl[1] * 60 * 60 + dl[2] * 60;
        case _ => return false;
      }
      return true;
    }

    /** The scanner applies the rules to the longest matches until the line ends, and passes over what matches none.
        False means that the parser ends with an error. */
    method Scan(s: string) returns (ok: bool)
      requires Valid()
      modifies this, dl
      ensures Valid()
      ensures match Parse(s, old(Components())).outcome
              case Set(d) => ok && deadline == d
              case Bad => !ok && deadline == old(deadline)
              case Unset => ok && deadline == old(deadline)
    {
      var rest := s;
      while rest != [] && !LineEnds(rest)
        invariant Valid() && deadline == old(deadline)
        invariant Parse(rest, Components()).outcome == Parse(s, old(Components())).outcome
        decreases |rest|
      {
        if IsDigit(rest[0]) {
          var n := DigitRun(rest);
          OnNumber(rest[..n]);
          rest := rest[n..];
        } else if rest[0] == ':' && |rest| > 1 && IsDigit(rest[1]) {
          var n := DigitRun(rest[1..]);
          assert rest[..1 + n][1..] == rest[1..][..n];
          ok := OnColonNumber(rest[..1 + n]);
          if !ok {
            return;
          }
          rest := rest[1..][n..];
        } else {
          rest := rest[1..];
        }
      }
      if rest == [] {
        return true;
      }
      ok := OnEndOfLine();
    }
  }

  // ------------------------------------------------------------------------------------------
  // Round trips
  // ------------------------------------------------------------------------------------------

  lemma ParseNumber(a: string, rest: string, dl: seq<int>)
    requires a != [] && Digits(a) && rest != [] && !IsDigit(rest[0])
    ensures Parse(a + rest, dl) == Parse(rest, [Value(a)]).Also(FitsInt(Value(a)))
  {
    RunIsPrefix(a, rest);
    assert a[0] in a;
  }

  lemma ParsePart(a: string, rest: string, dl: seq<int>)
    requires a != [] && Digits(a) && rest != [] && !IsDigit(rest[0]) && |dl| < 3
    ensures Parse([':'] + a + rest, dl) == Parse(rest, dl + [Value(a)]).Also(FitsInt(Value(a)))
  {
    PartTail(a, rest, a + rest, dl);
    assert [':'] + a + rest == [':'] + (a + rest);
  }

  lemma PartTail(a: string, rest: string, tail: string, dl: seq<int>)
    requires a != [] && Digits(a) && rest != [] && !IsDigit(rest[0]) && |dl| < 3 && tail == a + rest
    ensures Parse([':'] + tail, dl) == Parse(rest, dl + [Value(a)]).Also(FitsInt(Value(a)))
  {
    RunIsPrefix(a, rest);
    assert a[0] in a;
    ParseColon(tail, dl);
  }

  lemma ParseColon(tail: string, dl: seq<int>)
    requires tail != [] && IsDigit(tail[0]) && |dl| < 3
    ensures var n := DigitRun(tail); var v := Value(tail[..n]);
      Parse([':'] + tail, dl) == Parse(tail[n..], dl + [v]).Also(FitsInt(v))
  {
    assert ([':'] + tail)[1..] == tail;
  }

  lemma ParseEnd(end: string, dl: seq<int>)
    requires LineEnds(end)
    ensures Parse(end, dl) == Reading(Finish(dl), FinishFits(dl)) && !IsDigit(end[0])
  {
  }

  /** The documented forms, whatever comment follows: minutes, hours and minutes, days and hours and minutes. */
  lemma ParsesMinutes(a: string, end: string, dl: seq<int>)
    requires a != [] && Digits(a) && LineEnds(end)
    ensures Parse(a + end, dl).outcome == Set(Value(a) * MINUTE)
  {
    ParseNumber(a, end, dl);
    ParseEnd(end, [Value(a)]);
  }

  lemma ParsesHours(a: string, b: string, end: string, dl: seq<int>)
    requires a != [] && Digits(a) && b != [] && Digits(b) && LineEnds(end)
    ensures Parse(a + ([':'] + b + end), dl).outcome == Set(Value(a) * HOUR + Value(b) * MINUTE)
  {
    ParseNumber(a, [':'] + b + end, dl);
    ParseLast(b, end, [Value(a)]);
    assert [Value(a)] + [Value(b)] == [Value(a), Value(b)];
  }

  lemma ParseLast(c: string, end: string, dl: seq<int>)
    requires c != [] && Digits(c) && |dl| < 3 && LineEnds(end)
    ensures Parse([':'] + c + end, dl) ==
            Reading(Finish(dl + [Value(c)]), FitsInt(Value(c)) && FinishFits(dl + [Value(c)]))
  {
    ParseEnd(end, dl + [Value(c)]);
    ParsePart(c, end, dl);
  }

  lemma ParseRest(b: string, c: string, end: string, dl: seq<int>)
    requires b != [] && Digits(b) && c != [] && Digits(c) && |dl| < 2 && LineEnds(end)
    ensures Parse([':'] + b + ([':'] + c + end), dl) ==
            Reading(Finish(dl + [Value(b)] + [Value(c)]),
                    FitsInt(Value(b)) && FitsInt(Value(c)) && FinishFits(dl + [Value(b)] + [Value(c)]))
  {
    ParseLast(c, end, dl + [Value(b)]);
    ParsePart(b, [':'] + c + end, dl);
  }

  /** Three components, and what has to fit. */
  lemma ParseThree(a: string, b: string, c: string, end: string, dl: seq<int>)
    requires a != [] && Digits(a) && b != [] && Digits(b) && c != [] && Digits(c) && LineEnds(end)
    ensures Parse(a + ([':'] + b + ([':'] + c + end)), dl) ==
            Reading(Finish([Value(a), Value(b), Value(c)]),
                    FitsInt(Value(a)) && FitsInt(Value(b)) && FitsInt(Value(c))
                    && FinishFits([Value(a), Value(b), Value(c)]))
  {
    ParseRest(b, c, end, [Value(a)]);
    ParseNumber(a, [':'] + b + ([':'] + c + end), dl);
    assert [Value(a)] + [Value(b)] + [Value(c)] == [Value(a), Value(b), Value(c)];
  }

  lemma ParsesDays(a: string, b: string, c: string, end: string, dl: seq<int>)
    requires a != [] && Digits(a) && b != [] && Digits(b) && c != [] && Digits(c) && LineEnds(end)
    ensures Parse(a + ([':'] + b + ([':'] + c + end)), dl).outcome ==
            Set(Value(a) * DAY + Value(b) * HOUR + Value(c) * MINUTE)
  {
    ParseThree(a, b, c, end, dl);
  }

  // ------------------------------------------------------------------------------------------
  // Other texts
  // ------------------------------------------------------------------------------------------

  /** None of the characters of w, followed by rest, is matched by a rule. */
  predicate NoRule(w: string, rest: string) {
    w != [] ==>
      && !LineEnds(w + rest) && !IsDigit(w[0]) && !(w[0] == ':' && w[1..] + rest != [] && IsDigit((w[1..] + rest)[0]))
      && NoRule(w[1..], rest)
  }

  lemma {:induction false} PassesOver(w: string, rest: string, dl: seq<int>)
    requires NoRule(w, rest)
    ensures Parse(w + rest, dl) == Parse(rest, dl)
  {
    if w == [] {
      assert w + rest == rest;
    } else {
      assert (w + rest)[1..] == w[1..] + rest;
      PassesOver(w[1..], rest, dl);
    }
  }

  lemma PassesColon(w: string, rest: string, dl: seq<int>)
    requires w != [] && NoRule(w, rest)
    ensures Parse([':'] + (w + rest), dl) == Parse(rest, dl)
  {
    var s := [':'] + (w + rest);
    assert s[1..] == w + rest && s[1] == w[0];
    PassesOver(w, rest, dl);
  }

  /** A number, a colon and another number with characters between them that match no rule, are read as hours and
      minutes if and only if there are no such characters or the hours are zero: otherwise the second number starts
      over, and there is no error. */
  lemma SpacedColonIff(a: string, w: string, b: string, end: string, dl: seq<int>)
    requires a != [] && Digits(a) && b != [] && Digits(b) && LineEnds(end) && NoRule(w, b + end)
    ensures var outcome := Parse(a + ([':'] + (w + (b + end))), dl).outcome;
      && outcome == Set((if w == [] then Value(a) * HOUR else 0) + Value(b) * MINUTE)
      && (outcome == Set(Value(a) * HOUR + Value(b) * MINUTE) <==> w == [] || Value(a) == 0)
  {
    ColonReads(a, w, b, end, dl);
  }

  lemma ColonReads(a: string, w: string, b: string, end: string, dl: seq<int>)
    requires a != [] && Digits(a) && b != [] && Digits(b) && LineEnds(end) && NoRule(w, b + end)
    ensures Parse(a + ([':'] + (w + (b + end))), dl).outcome ==
            Set((if w == [] then Value(a) * HOUR else 0) + Value(b) * MINUTE)
  {
    if w == [] {
      PlainColon(a, w, b, end, dl);
    } else {
      SpacedColon(a, w, b + end, dl);
      ParsesMinutes(b, end, [Value(a)]);
    }
  }

  /** An hour and a half, with a blank after the colon, is read as half an hour. */
  lemma HourLost(dl: seq<int>)
    ensures Parse("1" + (":" + (" " + ("30" + "\n"))), dl).outcome == Set(30 * MINUTE)
  {
    var hours, minutes := "1", "30";
    assert hours == Decimal(1) && minutes == Decimal(3) + [Digit(0)] == Decimal(30);
    ValueOfDecimal(1);
    ValueOfDecimal(30);
    assert NoRule(" ", minutes + "\n") by {
      var tail := minutes + "\n";
      assert (" " + tail)[1..] == tail && " "[1..] == "" && tail[0] == '3' && !LineEnds(tail);
    }
    SpacedColonIff(hours, " ", minutes, "\n", dl);
  }

  lemma PlainColon(a: string, w: string, b: string, end: string, dl: seq<int>)
    requires a != [] && Digits(a) && b != [] && Digits(b) && LineEnds(end) && w == []
    ensures Parse(a + ([':'] + (w + (b + end))), dl).outcome == Set(Value(a) * HOUR + Value(b) * MINUTE)
  {
    assert [':'] + (w + (b + end)) == [':'] + b + end;
    ParsesHours(a, b, end, dl);
  }

  lemma SpacedColon(a: string, w: string, rest: string, dl: seq<int>)
    requires a != [] && Digits(a) && w != [] && NoRule(w, rest)
    ensures Parse(a + ([':'] + (w + rest)), dl).outcome == Parse(rest, [Value(a)]).outcome
  {
    ParseNumber(a, [':'] + (w + rest), dl);
    PassesColon(w, rest, [Value(a)]);
  }

  /** What the rules find in a text: numbers, and numbers after a colon. */
  datatype Token = Number(value: nat) | Part(value: nat)

  function Tokens(s: string): seq<Token>
    decreases |s|
  {
    if s == [] || LineEnds(s) then []
    else if IsDigit(s[0]) then var n := DigitRun(s); [Number(Value(s[..n]))] + Tokens(s[n..])
    else if s[0] == ':' && |s| > 1 && IsDigit(s[1]) then
      var n := DigitRun(s[1..]); [Part(Value(s[1..][..n]))] + Tokens(s[1..][n..])
    else Tokens(s[1..])
  }

  /** How many characters are passed over. */
  function PassedOver(s: string): nat
    decreases |s|
  {
    if s == [] || LineEnds(s) then 0
    else if IsDigit(s[0]) then PassedOver(s[DigitRun(s)..])
    else if s[0] == ':' && |s| > 1 && IsDigit(s[1]) then PassedOver(s[1..][DigitRun(s[1..])..])
    else 1 + PassedOver(s[1..])
  }

  /** The last number and the parts after it; the components left from before, if there is no number. */
  function Group(tokens: seq<Token>, dl: seq<int>): seq<int> {
    if tokens == [] then dl
    else var t := tokens[|tokens| - 1];
         if t.Number? then [t.value] else Group(tokens[..|tokens| - 1], dl) + [t.value]
  }

  /** At some part there are more than three components. */
  ghost predicate Overfull(tokens: seq<Token>, dl: seq<int>) {
    exists i | 0 < i <= |tokens| :: |Group(tokens[..i], dl)| > 3
  }

  function After(t: Token, dl: seq<int>): seq<int> { if t.Number? then [t.value] else dl + [t.value] }

  lemma {:induction false} GroupFrom(t: Token, rest: seq<Token>, dl: seq<int>)
    ensures Group([t] + rest, dl) == Group(rest, After(t, dl))
  {
    if rest == [] {
      assert [t] + rest == [t] && [t][..0] == [];
    } else {
      var n := |rest| - 1;
      assert ([t] + rest)[..n + 1] == [t] + rest[..n];
      GroupFrom(t, rest[..n], dl);
    }
  }

  lemma GroupStep(t: Token, rest: seq<Token>, dl: seq<int>, i: nat)
    requires i <= |rest|
    ensures Group(([t] + rest)[..i + 1], dl) == Group(rest[..i], After(t, dl))
  {
    assert ([t] + rest)[..i + 1] == [t] + rest[..i];
    GroupFrom(t, rest[..i], dl);
  }

  lemma OverfullFrom(t: Token, rest: seq<Token>, dl: seq<int>)
    ensures Overfull([t] + rest, dl) <==> |After(t, dl)| > 3 || Overfull(rest, After(t, dl))
  {
    var all := [t] + rest;
    GroupStep(t, rest, dl, 0);
    assert rest[..0] == [];
    if Overfull(rest, After(t, dl)) {
      var i :| 0 < i <= |rest| && |Group(rest[..i], After(t, dl))| > 3;
      GroupStep(t, rest, dl, i);
      assert |Group(all[..i + 1], dl)| > 3;
    }
    if |After(t, dl)| > 3 {
      assert |Group(all[..1], dl)| > 3;
    }
    if Overfull(all, dl) {
      var i :| 0 < i <= |all| && |Group(all[..i], dl)| > 3;
      GroupStep(t, rest, dl, i - 1);
    }
  }

  /** What comes of any text at all: an error if there are ever more than three components, else nothing if there is no
      end of line, else the last number and the parts after it. */
  ghost function Meaning(s: string, dl: seq<int>): Outcome {
    if Overfull(Tokens(s), dl) then Bad else if '\n' !in s then Unset else Finish(Group(Tokens(s), dl))
  }

  lemma {:induction false} OutcomeIs(s: string, dl: seq<int>)
    requires |dl| <= 3
    ensures Parse(s, dl).outcome == Meaning(s, dl)
    decreases |s|
  {
    if s == [] {
    } else if LineEnds(s) {
      LineEndsIn(s);
    } else if IsDigit(s[0]) {
      TokenRead(s, 0, dl);
    } else if s[0] == ':' && |s| > 1 && IsDigit(s[1]) {
      TokenRead(s, 1, dl);
    } else {
      OutcomeIs(s[1..], dl);
      assert s == [s[0]] + s[1..];
    }
  }

  /** The text from k on starts with a number. */
  lemma TokenRead(s: string, k: nat, dl: seq<int>)
    requires k < |s| && k <= 1 && IsDigit(s[k]) && !LineEnds(s) && (k == 1 ==> s[0] == ':') && |dl| <= 3
    ensures Parse(s, dl).outcome == Meaning(s, dl)
    decreases |s|, 0
  {
    var n := DigitRun(s[k..]);
    var rest := s[k..][n..];
    var t := if k == 0 then Number(Value(s[k..][..n])) else Part(Value(s[k..][..n]));
    assert s[0..] == s;
    assert Tokens(s) == [t] + Tokens(rest);
    OverfullFrom(t, Tokens(rest), dl);
    GroupFrom(t, Tokens(rest), dl);
    NumberHasNoEnd(s, k, n);
    if |After(t, dl)| <= 3 {
      OutcomeIs(rest, After(t, dl));
    }
  }

  lemma LineEndsIn(s: string)
    requires LineEnds(s)
    ensures '\n' in s
  {
  }

  lemma NumberHasNoEnd(s: string, k: nat, n: nat)
    requires k <= 1 && k + n <= |s| && Digits(s[k..][..n]) && (k == 1 ==> s[0] == ':')
    ensures '\n' in s <==> '\n' in s[k..][n..]
  {
    assert s == s[..k] + s[k..][..n] + s[k..][n..];
  }

  /** The documented form: [[DD:]HH:]MM up to the end of the line. */
  predicate Documented(s: string) { s != [] && IsDigit(s[0]) && PartsThenEnd(s[DigitRun(s)..], 2) }

  predicate PartsThenEnd(s: string, most: nat) {
    LineEnds(s)
    || (most > 0 && |s| > 1 && s[0] == ':' && IsDigit(s[1]) && PartsThenEnd(s[1..][DigitRun(s[1..])..], most - 1))
  }

  predicate AllParts(tokens: seq<Token>) { forall t <- tokens :: t.Part? }

  lemma {:induction false} PartsIff(s: string, most: nat)
    requires s == [] || !IsDigit(s[0])
    ensures PartsThenEnd(s, most) <==>
            PassedOver(s) == 0 && '\n' in s && AllParts(Tokens(s)) && |Tokens(s)| <= most
    decreases |s|
  {
    if s == [] {
    } else if LineEnds(s) {
      LineEndsIn(s);
    } else if s[0] == ':' && |s| > 1 && IsDigit(s[1]) {
      var n := DigitRun(s[1..]);
      var rest := s[1..][n..];
      NumberHasNoEnd(s, 1, n);
      PartsIff(rest, if most > 0 then most - 1 else 0);
      assert Tokens(s) == [Part(Value(s[1..][..n]))] + Tokens(rest);
      assert AllParts(Tokens(s)) <==> AllParts(Tokens(rest));
    }
  }

  /** A text has the documented form if and only if no character of it is passed over and it is one number and at most
      two parts. */
  lemma DocumentedIff(s: string)
    ensures Documented(s) <==>
            && PassedOver(s) == 0 && '\n' in s && 0 < |Tokens(s)| <= 3 && Tokens(s)[0].Number?
            && AllParts(Tokens(s)[1..])
  {
    if s != [] && IsDigit(s[0]) {
      var n := DigitRun(s);
      PartsIff(s[n..], 2);
      assert s[0..] == s;
      NumberHasNoEnd(s, 0, n);
      assert Tokens(s)[1..] == Tokens(s[n..]);
    } else if Documented(s) {
    } else {
      NotANumber(s);
    }
  }

  /** A text that does not start with a digit starts with a part, or with a character that is passed over. */
  lemma NotANumber(s: string)
    requires s == [] || !IsDigit(s[0])
    ensures Tokens(s) == [] || Tokens(s)[0].Part? || PassedOver(s) > 0
  {
  }

  /** A text is accepted without an error, and sets a deadline, if and only if it has an end of line, a number or
      components left from before, and never more than three components. All documented texts are; any other such text
      has characters that are passed over, a number that starts over, or no number at its start. */
  lemma AcceptedIff(s: string, dl: seq<int>)
    requires |dl| <= 3
    ensures Parse(s, dl).outcome.Set? <==>
            '\n' in s && (Tokens(s) != [] || dl != []) && !Overfull(Tokens(s), dl)
    ensures Documented(s) ==> Parse(s, dl).outcome.Set?
    ensures Parse(s, dl).outcome.Set? && !Documented(s) ==>
            PassedOver(s) > 0 || Tokens(s) == [] || Tokens(s)[0].Part? || !AllParts(Tokens(s)[1..])
  {
    OutcomeIs(s, dl);
    DocumentedIff(s);
    GroupSize(Tokens(s), dl);
  }

  lemma {:induction false} GroupSize(tokens: seq<Token>, dl: seq<int>)
    ensures Group(tokens, dl) == [] <==> tokens == [] && dl == []
    ensures tokens != [] && tokens[0].Number? && AllParts(tokens[1..]) ==> |Group(tokens, dl)| == |tokens|
    ensures tokens != [] && tokens[0].Number? && AllParts(tokens[1..]) && |tokens| <= 3 ==> !Overfull(tokens, dl)
    ensures !Overfull(tokens, dl) && |dl| <= 3 ==> |Group(tokens, dl)| <= 3
  {
    if tokens != [] {
      var n := |tokens| - 1;
      GroupSize(tokens[..n], dl);
      assert tokens[..|tokens|] == tokens;
      if tokens[0].Number? && AllParts(tokens[1..]) {
        if n > 0 {
          assert tokens[n] in tokens[1..];
          assert forall t <- tokens[..n][1..] :: t in tokens[1..];
        }
        forall i | 0 < i <= |tokens| ensures |Group(tokens[..i], dl)| == i {
          PlainPrefix(tokens, dl, i);
        }
      }
    }
  }

  lemma {:induction false} PlainPrefix(tokens: seq<Token>, dl: seq<int>, i: nat)
    requires 0 < i <= |tokens| && tokens[0].Number? && AllParts(tokens[1..])
    ensures |Group(tokens[..i], dl)| == i
  {
    if i > 1 {
      assert tokens[..i][..i - 1] == tokens[..i - 1];
      PlainPrefix(tokens, dl, i - 1);
      assert tokens[i - 1] in tokens[1..];
    }
  }

  lemma Components(d: nat)
    ensures d / 60 / 60 / 24 * DAY + d / 60 / 60 % 24 * HOUR + d / 60 % 60 * MINUTE == d - d % 60
  {
    var m := d / 60;
    var h := m / 60;
    assert d == 60 * m + d % 60 && m == 60 * h + m % 60 && h == 24 * (h / 24) + h % 24;
  }

  lemma ParsePrinted(d: nat, dl: seq<int>)
    ensures var dl' := [d / 60 / 60 / 24, d / 60 / 60 % 24, d / 60 % 60];
      Parse(Print(d) + "\n", dl) ==
      Reading(Finish(dl'), FitsInt(dl'[0]) && FitsInt(dl'[1]) && FitsInt(dl'[2]) && FinishFits(dl'))
  {
    var a, b, c := Decimal(d / 60 / 60 / 24), TwoDigits(d / 60 / 60 % 24), TwoDigits(d / 60 % 60);
    assert Print(d) + "\n" == a + ([':'] + b + ([':'] + c + "\n"));
    ParseThree(a, b, c, "\n", dl);
    ValueOfDecimal(d / 60 / 60 / 24);
    ValueOfTwoDigits(d / 60 / 60 % 24);
    ValueOfTwoDigits(d / 60 % 60);
  }

  /** A deadline comes back rounded down to the minute. */
  lemma RoundTrip(d: nat, dl: seq<int>)
    ensures Parse(Print(d) + "\n", dl).outcome == Set(d - d % 60)
  {
    ParsePrinted(d, dl);
    Components(d);
  }

  lemma SameMinute(d: nat, e: nat)
    requires d == e - e % 60
    ensures d / 60 == e / 60 && Print(d) == Print(e)
  {
    assert e == 60 * (e / 60) + e % 60;
    assert d / 60 == e / 60;
  }

  /** Printing what was parsed prints the same text. */
  lemma PrintParsePrint(d: nat, dl: seq<int>)
    ensures var r := Parse(Print(d) + "\n", dl).outcome; r.Set? && r.deadline >= 0 && Print(r.deadline) == Print(d)
  {
    RoundTrip(d, dl);
    SameMinute(d - d % 60, d);
  }

  lemma FitsBelow(a: nat, b: nat, c: nat)
    ensures FitsInt(a) && FitsInt(b) && FitsInt(c) && FinishFits([a, b, c]) <==>
            FitsInt(a * 24 * 60 * 60 + b * 60 * 60 + c * 60)
  {
  }

  /** Reading a printed deadline overflows nowhere if and only if the deadline, rounded down to the minute, fits the
      source's int. */
  lemma NoOverflow(d: nat, dl: seq<int>)
    ensures Parse(Print(d) + "\n", dl).fits <==> d - d % 60 <= INT_MAX
  {
    ParsePrinted(d, dl);
    Components(d);
    FitsBelow(d / 60 / 60 / 24, d / 60 / 60 % 24, d / 60 % 60);
  }
}
