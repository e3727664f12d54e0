/** The `sequence` field of a request: up to four steps `domain:action:type:algorithm`, separated by
    `>` (src/server/service/scheduler.c:222-277). */
module SequenceText {
  import opened Common
  import opened CStrings
  import opened Names

  datatype Step = Step(domain: Domain, action: Action, devType: DeviceType, algorithm: string)

  datatype StepError = TooManySteps | BadToken | MissingAction | MissingType | BadStepAlgorithm

  datatype Steps = Steps(steps: seq<Step>) | BadSequence(error: StepError)

  datatype OneStep = GoodStep(step: Step) | BadStep(error: StepError)

  function StepOfParts(parts: seq<string>): OneStep {
    if |parts| == 0 then BadStep(BadToken)
    else if |parts| == 1 then BadStep(MissingAction)
    else if |parts| == 2 then BadStep(MissingType)
    else if |parts| == 3 then BadStep(BadStepAlgorithm)
    else StepOf(ParseDomain(parts[0]), ParseAction(parts[1]), ParseDeviceType(parts[2]), Normalize(parts[3], MAX_FIELD_LEN))
  }

  function StepOf(domain: Domain, action: Action, devType: DeviceType, algorithm: Option<string>): OneStep {
    if algorithm.None? then BadStep(BadStepAlgorithm)
    else if domain == DomainUnknown || action == ActionUnknown || devType == DevUnknown then BadStep(BadToken)
    else GoodStep(Step(domain, action, devType, algorithm.value))
  }

  function ParseStep(token: string): OneStep {
    StepOfParts(Tokens(Clip(token, MAX_FIELD_LEN), ':'))
  }

  type Reader = string -> OneStep

  /** Collects the steps of the tokens behind those already `done`. */
  function Collect(read: Reader, tokens: seq<string>, done: seq<Step>): Steps
    decreases |tokens|
  {
    if tokens == [] then Steps(done)
    else if |done| >= MAX_SEQUENCE_STEPS then BadSequence(TooManySteps)
    else
      match read(tokens[0])
      case BadStep(e) => BadSequence(e)
      case GoodStep(s) => Collect(read, tokens[1..], done + [s])
  }

  function StepReader(): Reader { token => ParseStep(token) }

  function ParseTokens(tokens: seq<string>, done: seq<Step>): Steps { Collect(StepReader(), tokens, done) }

  function ParseSteps(sequence: string): Steps {
    ParseTokens(Tokens(Clip(sequence, MAX_PAYLOAD_LEN), '>'), [])
  }

  /** The inner tokenizer: the parts of one step are cut off one after another and parsed. */
  method ParseOneStep(token: string) returns (r: OneStep)
    ensures r == ParseStep(token)
  {
    var buf := Clip(token, MAX_FIELD_LEN);
    ghost var parts := Tokens(buf, ':');
    var domain, action, devType, algorithm, rest;
    domain, rest := NextToken(buf, ':');
    if domain.None? { return BadStep(BadToken); }
    action, rest := NextToken(rest, ':');
    if action.None? {
      assert |parts| == 1;
      return BadStep(MissingAction);
    }
    ghost var after2 := Tokens(rest, ':');
    assert parts == [domain.value, action.value] + after2;
    devType, rest := NextToken(rest, ':');
    if devType.None? {
      assert |parts| == 2;
      return BadStep(MissingType);
    }
    ghost var after3 := Tokens(rest, ':');
    assert parts == [domain.value, action.value, devType.value] + after3;
    algorithm, rest := NextToken(rest, ':');
    if algorithm.None? {
      assert |parts| == 3;
      return BadStep(BadStepAlgorithm);
    }
    FourParts(parts, domain.value, action.value, devType.value, algorithm.value);
    return StepOf(ParseDomain(domain.value), ParseAction(action.value), ParseDeviceType(devType.value),
                  Normalize(algorithm.value, MAX_FIELD_LEN));
  }

  method ParseSequence(sequence: string) returns (r: Steps)
    ensures r == ParseSteps(sequence)
  {
    if sequence == "" { return Steps([]); }
    var buf := Clip(sequence, MAX_PAYLOAD_LEN);
    var steps: seq<Step> := [];
    var token, rest := NextToken(buf, '>');
    while token.Some?
      invariant |steps| <= MAX_SEQUENCE_STEPS
      invariant ParseSteps(sequence) ==
        ParseTokens(if token.None? then [] else [token.value] + Tokens(rest, '>'), steps)
      decreases if token.Some? then 1 + |rest| else 0
    {
      if |steps| >= MAX_SEQUENCE_STEPS { return BadSequence(TooManySteps); }
      assert ([token.value] + Tokens(rest, '>'))[1..] == Tokens(rest, '>');
      var one := ParseOneStep(token.value);
      if one.BadStep? { return BadSequence(one.error); }
      steps := steps + [one.step];
      token, rest := NextToken(rest, '>');
    }
    return Steps(steps);
  }

  // ------------------------------------------------------------- what a success guarantees

  predicate Known(s: Step) {
    s.domain != DomainUnknown && s.action != ActionUnknown && s.devType != DevUnknown
    && Normalize(s.algorithm, MAX_FIELD_LEN) == Some(s.algorithm)
  }

  predicate AllKnown(steps: seq<Step>) { forall i :: 0 <= i < |steps| ==> Known(steps[i]) }

  lemma ParsedStepIsKnown(token: string)
    requires ParseStep(token).GoodStep?
    ensures Known(ParseStep(token).step)
  {
    var parts := Tokens(Clip(token, MAX_FIELD_LEN), ':');
    BuiltStepIsKnown(ParseDomain(parts[0]), ParseAction(parts[1]), ParseDeviceType(parts[2]), parts[3]);
  }

  lemma BuiltStepIsKnown(domain: Domain, action: Action, devType: DeviceType, algorithm: string)
    requires StepOf(domain, action, devType, Normalize(algorithm, MAX_FIELD_LEN)).GoodStep?
    ensures Known(StepOf(domain, action, devType, Normalize(algorithm, MAX_FIELD_LEN)).step)
  {
    NormalizeIdempotent(algorithm, MAX_FIELD_LEN);
  }

  /** Token by token, the steps behind those of `done`. */
  ghost predicate ReadAs(read: Reader, tokens: seq<string>, steps: seq<Step>) {
    |tokens| == |steps| && forall i :: 0 <= i < |steps| ==> read(tokens[i]) == GoodStep(steps[i])
  }

  lemma {:induction false} CollectedAreRead(read: Reader, tokens: seq<string>, done: seq<Step>)
    requires |done| <= MAX_SEQUENCE_STEPS && Collect(read, tokens, done).Steps?
    ensures var r := Collect(read, tokens, done).steps;
      |done| <= |r| <= MAX_SEQUENCE_STEPS && r[..|done|] == done && ReadAs(read, tokens, r[|done|..])
    decreases |tokens|
  {
    if tokens != [] {
      var s := read(tokens[0]).step;
      CollectedAreRead(read, tokens[1..], done + [s]);
      var r := Collect(read, tokens, done).steps;
      assert r[..|done| + 1][..|done|] == r[..|done|] && r[..|done| + 1][|done|] == r[|done|];
      forall i | 0 <= i < |r| - |done| ensures read(tokens[i]) == GoodStep(r[|done|..][i]) {
        if i > 0 { assert tokens[1..][i - 1] == tokens[i] && r[|done| + 1..][i - 1] == r[|done|..][i]; }
      }
    }
  }

  /** Every sequence that is accepted has at most four steps, one for each token, all of them with a
      known domain, action and device type and a normal-form algorithm. */
  lemma AcceptedStepsAreKnown(sequence: string)
    requires ParseSteps(sequence).Steps?
    ensures var r := ParseSteps(sequence).steps;
      AllKnown(r) && |r| == |Tokens(Clip(sequence, MAX_PAYLOAD_LEN), '>')| <= MAX_SEQUENCE_STEPS
  {
    var tokens, r := Tokens(Clip(sequence, MAX_PAYLOAD_LEN), '>'), ParseSteps(sequence).steps;
    CollectedAreRead(StepReader(), tokens, []);
    assert r[0..] == r;
    forall i | 0 <= i < |r| ensures Known(r[i]) {
      assert StepReader()(tokens[i]) == GoodStep(r[i]);
      ParsedStepIsKnown(tokens[i]);
    }
  }

  // ------------------------------------------------------------- what is accepted

  /** The parts spell the step's names; whatever follows the algorithm is ignored. */
  predicate PartsSpell(parts: seq<string>, s: Step) {
    && |parts| >= 4
    && Spells(parts[0], DomainToString(s.domain)) && Spells(parts[1], ActionToString(s.action))
    && Spells(parts[2], DeviceTypeToString(s.devType)) && Normalize(parts[3], 256) == Some(s.algorithm)
  }

  /** A token is a step exactly when its parts spell the names of that step. */
  lemma StepIsSpelled(token: string, s: Step)
    requires s.domain != DomainUnknown && s.action != ActionUnknown && s.devType != DevUnknown
    ensures ParseStep(token) == GoodStep(s) <==> PartsSpell(Tokens(Clip(token, 256), ':'), s)
  {
    var parts := Tokens(Clip(token, MAX_FIELD_LEN), ':');
    if |parts| >= 4 {
      DomainNames(parts[0], s.domain);
      ActionNames(parts[1], s.action);
      DeviceTypeNames(parts[2], s.devType);
      BuiltIff(ParseDomain(parts[0]), ParseAction(parts[1]), ParseDeviceType(parts[2]), Normalize(parts[3], MAX_FIELD_LEN), s);
    }
  }

  lemma BuiltIff(domain: Domain, action: Action, devType: DeviceType, algorithm: Option<string>, s: Step)
    requires s.domain != DomainUnknown && s.action != ActionUnknown && s.devType != DevUnknown
    ensures StepOf(domain, action, devType, algorithm) == GoodStep(s)
      <==> domain == s.domain && action == s.action && devType == s.devType && algorithm == Some(s.algorithm)
  {
  }

  /** Which error a token without enough parts is. */
  lemma ShortStep(token: string)
    requires |Tokens(Clip(token, 256), ':')| < 4
    ensures var n := |Tokens(Clip(token, 256), ':')|;
      ParseStep(token) == BadStep(if n == 0 then BadToken else if n == 1 then MissingAction
                                  else if n == 2 then MissingType else BadStepAlgorithm)
  {
  }

  /** A sequence is these steps exactly when they are at most four and each token is the step in its place. */
  lemma AcceptedIff(sequence: string, steps: seq<Step>)
    ensures ParseSteps(sequence) == Steps(steps)
      <==> |steps| <= 4 && ReadAs(StepReader(), Tokens(Clip(sequence, 1024), '>'), steps)
  {
    var tokens := Tokens(Clip(sequence, MAX_PAYLOAD_LEN), '>');
    if ParseSteps(sequence) == Steps(steps) {
      CollectedAreRead(StepReader(), tokens, []);
      assert steps[0..] == steps;
    }
    if |steps| <= 4 && ReadAs(StepReader(), tokens, steps) {
      ReadAreCollected(StepReader(), tokens, steps, []);
      assert [] + steps == steps;
    }
  }

  // ------------------------------------------------------------- the round trip

  function Parts(s: Step): seq<string> {
    [DomainToString(s.domain), ActionToString(s.action), DeviceTypeToString(s.devType), s.algorithm]
  }

  function PrintStep(s: Step): string { JoinWith(Parts(s), ':') }

  function PrintSteps(steps: seq<Step>): seq<string> {
    seq(|steps|, i requires 0 <= i < |steps| => PrintStep(steps[i]))
  }

  function PrintSequence(steps: seq<Step>): string { JoinWith(PrintSteps(steps), '>') }

  predicate Printable(s: Step) {
    Known(s) && s.algorithm != "" && ':' !in s.algorithm && '>' !in s.algorithm && |PrintStep(s)| < MAX_FIELD_LEN
  }

  predicate AllPrintable(steps: seq<Step>) { forall i :: 0 <= i < |steps| ==> Printable(steps[i]) }

  lemma WordHasNo(w: string, d: char)
    requires IsWord(w) && !('a' <= d <= 'z') && d != '_'
    ensures d !in w
  {
  }

  lemma PartsAreDelimited(s: Step)
    requires Printable(s)
    ensures forall p :: p in Parts(s) ==> p != "" && ':' !in p
  {
    PrintedWords(s.domain, s.action, s.devType);
    WordHasNo(DomainToString(s.domain), ':');
    WordHasNo(ActionToString(s.action), ':');
    WordHasNo(DeviceTypeToString(s.devType), ':');
  }

  lemma StepOfParsed(parts: seq<string>, s: Step)
    requires |parts| == 4 && s.domain != DomainUnknown && s.action != ActionUnknown && s.devType != DevUnknown
    requires ParseDomain(parts[0]) == s.domain && ParseAction(parts[1]) == s.action
    requires ParseDeviceType(parts[2]) == s.devType && Normalize(parts[3], MAX_FIELD_LEN) == Some(s.algorithm)
    ensures StepOfParts(parts) == GoodStep(s)
  {
    FourParts(parts, parts[0], parts[1], parts[2], parts[3]);
  }

  lemma FourParts(parts: seq<string>, domain: string, action: string, devType: string, algorithm: string)
    requires |parts| > 3 && parts[0] == domain && parts[1] == action && parts[2] == devType && parts[3] == algorithm
    ensures StepOfParts(parts)
      == StepOf(ParseDomain(domain), ParseAction(action), ParseDeviceType(devType), Normalize(algorithm, MAX_FIELD_LEN))
  {
  }

  lemma StepRoundTrip(s: Step)
    requires Printable(s)
    ensures ParseStep(PrintStep(s)) == GoodStep(s)
  {
    PartsAreDelimited(s);
    TokensOfJoin(Parts(s), ':');
    TableRoundTrip(s.domain, s.action, s.devType, PrefBalanced);
    StepOfParsed(Parts(s), s);
  }

  lemma PrintedStepHasNoArrow(s: Step)
    requires Printable(s)
    ensures '>' !in PrintStep(s) && PrintStep(s) != ""
  {
    PrintedWords(s.domain, s.action, s.devType);
    WordHasNo(DomainToString(s.domain), '>');
    WordHasNo(ActionToString(s.action), '>');
    WordHasNo(DeviceTypeToString(s.devType), '>');
    JoinHasNo(Parts(s), ':', '>');
  }

  lemma {:induction false} JoinHasNo(parts: seq<string>, sep: char, c: char)
    requires c != sep && forall p :: p in parts ==> c !in p
    ensures c !in JoinWith(parts, sep) && (parts != [] ==> |parts[0]| <= |JoinWith(parts, sep)|)
  {
    if |parts| > 1 {
      assert parts[0] in parts && forall p :: p in parts[1..] ==> p in parts;
      JoinHasNo(parts[1..], sep, c);
    } else if |parts| == 1 {
      assert parts[0] in parts;
    }
  }

  lemma PrintedAreRead(steps: seq<Step>)
    requires AllPrintable(steps)
    ensures ReadAs(StepReader(), PrintSteps(steps), steps)
  {
    forall i | 0 <= i < |steps| ensures StepReader()(PrintSteps(steps)[i]) == GoodStep(steps[i]) {
      assert Printable(steps[i]);
      StepRoundTrip(steps[i]);
    }
  }

  lemma {:induction false} ReadAreCollected(read: Reader, tokens: seq<string>, steps: seq<Step>, done: seq<Step>)
    requires ReadAs(read, tokens, steps) && |done| <= MAX_SEQUENCE_STEPS
    ensures Collect(read, tokens, done)
      == if |done| + |steps| <= MAX_SEQUENCE_STEPS then Steps(done + steps) else BadSequence(TooManySteps)
    decreases |tokens|
  {
    if steps == [] {
      assert done + steps == done;
    } else if |done| < MAX_SEQUENCE_STEPS {
      assert read(tokens[0]) == GoodStep(steps[0]);
      assert forall i :: 0 <= i < |steps[1..]| ==> steps[1..][i] == steps[i + 1] && tokens[1..][i] == tokens[i + 1];
      ReadAreCollected(read, tokens[1..], steps[1..], done + [steps[0]]);
      assert done + [steps[0]] + steps[1..] == done + steps;
    }
  }

  lemma PrintedStepsAreTokens(steps: seq<Step>)
    requires AllPrintable(steps)
    ensures forall p :: p in PrintSteps(steps) ==> p != "" && '>' !in p
  {
    forall i | 0 <= i < |steps| ensures PrintSteps(steps)[i] != "" && '>' !in PrintSteps(steps)[i] {
      assert Printable(steps[i]);
      PrintedStepHasNoArrow(steps[i]);
    }
  }

  /** Parsing undoes printing for every list of at most four printable steps that fits the buffer. */
  lemma SequenceRoundTrip(steps: seq<Step>)
    requires AllPrintable(steps) && |steps| <= MAX_SEQUENCE_STEPS && |PrintSequence(steps)| < MAX_PAYLOAD_LEN
    ensures ParseSteps(PrintSequence(steps)) == Steps(steps)
  {
    PrintedStepsAreTokens(steps);
    TokensOfJoin(PrintSteps(steps), '>');
    PrintedAreRead(steps);
    ReadAreCollected(StepReader(), PrintSteps(steps), steps, []);
    assert [] + steps == steps;
  }

  /** One step more and the same text is refused. */
  lemma FifthStepRefused(steps: seq<Step>)
    requires AllPrintable(steps) && |steps| > MAX_SEQUENCE_STEPS && |PrintSequence(steps)| < MAX_PAYLOAD_LEN
    ensures ParseSteps(PrintSequence(steps)) == BadSequence(TooManySteps)
  {
    PrintedStepsAreTokens(steps);
    TokensOfJoin(PrintSteps(steps), '>');
    PrintedAreRead(steps);
    ReadAreCollected(StepReader(), PrintSteps(steps), steps, []);
  }

  // ------------------------------------------------------------- no steps

  /** A text stands for no steps exactly when it has nothing but delimiters in its first 1023 bytes. */
  lemma NoStepsIff(sequence: string)
    ensures ParseSteps(sequence) == Steps([]) <==> OnlyDelimiters(Clip(sequence, MAX_PAYLOAD_LEN), '>')
  {
    NoTokensIff(Clip(sequence, MAX_PAYLOAD_LEN), '>');
    if ParseSteps(sequence).Steps? { AcceptedStepsAreKnown(sequence); }
  }

  // ------------------------------------------------------------- one step of a sequence

  lemma OneOfTokens(read: Reader, text: string, steps: seq<Step>, j: nat) returns (token: string)
    requires j < |steps| && ReadAs(read, Tokens(text, '>'), steps)
    ensures token != "" && |token| <= |text| && ReadAs(read, Tokens(token, '>'), [steps[j]])
  {
    token := Tokens(text, '>')[j];
    assert token in Tokens(text, '>');
    TokensAreShort(text, '>', j);
    TokensOfJoin([token], '>');
  }

  /** Every step of an accepted sequence makes a sequence of its own. */
  lemma StepAlone(sequence: string, j: nat) returns (token: string)
    requires ParseSteps(sequence).Steps? && j < |ParseSteps(sequence).steps|
    ensures token != "" && ParseSteps(token) == Steps([ParseSteps(sequence).steps[j]])
  {
    var clipped, steps := Clip(sequence, MAX_PAYLOAD_LEN), ParseSteps(sequence).steps;
    AcceptedIff(sequence, steps);
    token := OneOfTokens(StepReader(), clipped, steps, j);
    AcceptedIff(token, [steps[j]]);
  }
}
