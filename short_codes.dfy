/**
 * Short match codes. Every registry (the three in-memory game managers and
 * the tic-tac-toe code service) spells a code as six symbols from an
 * alphabet that leaves out I, O, 0 and 1, and retries at most ten times
 * when the code is already taken.
 *
 * The random symbol indices (RandomNumberGenerator.GetInt32(32)) are
 * supplied by the caller: `draws` holds the six indices of one attempt and
 * `attempts` the draws of each of the ten attempts.
 */
module ShortCodes {
  import opened Wrappers

  const Alphabet: string := "ABCDEFGHJKLMNPQRSTUVWXYZ23456789"
  const CodeLength: nat := 6
  const MaxAttempts: nat := 10
  const ExhaustedMessage: string := "Failed to generate a unique short code after 10 attempts."

  /** A well-formed code: six symbols of the alphabet. */
  predicate IsCode(s: string) {
    |s| == CodeLength && forall i :: 0 <= i < |s| ==> s[i] in Alphabet
  }

  /** The six symbol indices of one attempt, each in [0, 32). */
  predicate ValidDraws(d: seq<int>) {
    |d| == CodeLength && forall i :: 0 <= i < |d| ==> 0 <= d[i] < |Alphabet|
  }

  /** The draws of all ten attempts. */
  predicate ValidAttempts(attempts: seq<seq<int>>) {
    |attempts| == MaxAttempts && forall i :: 0 <= i < |attempts| ==> ValidDraws(attempts[i])
  }

  /** The code that one attempt's draws spell. */
  function Spell(d: seq<int>): (s: string)
    requires ValidDraws(d)
    ensures IsCode(s)
    ensures forall i :: 0 <= i < CodeLength ==> s[i] == Alphabet[d[i]]
  {
    seq(CodeLength, i requires 0 <= i < CodeLength => Alphabet[d[i]])
  }

  /** The alphabet has 32 symbols and none of the ambiguous ones. */
  lemma AlphabetIsUnambiguous()
    ensures |Alphabet| == 32
    ensures forall i :: 0 <= i < |Alphabet| ==>
              Alphabet[i] != 'I' && Alphabet[i] != 'O' && Alphabet[i] != '0' && Alphabet[i] != '1'
  {
  }

  /** Fills a six-character buffer, one symbol per draw. */
  method GenerateCode(draws: seq<int>) returns (code: string)
    requires ValidDraws(draws)
    ensures IsCode(code)
    ensures code == Spell(draws)
  {
    var buffer := new char[CodeLength];
    for i := 0 to CodeLength
      invariant forall k :: 0 <= k < i ==> buffer[k] == Alphabet[draws[k]]
    {
      buffer[i] := Alphabet[draws[i]];
    }
    code := buffer[..];
  }

  /**
   * Tries at most ten codes and returns the first one not in `taken`
   * (the registry's keys, or the codes already stored); fails with
   * InvalidOperationException's message when all ten collide.
   */
  method GenerateUniqueCode(taken: set<string>, attempts: seq<seq<int>>) returns (r: Result<string>)
    requires ValidAttempts(attempts)
    ensures r.Success? ==> IsCode(r.value) && r.value !in taken
    ensures r.Success? ==> exists i :: 0 <= i < MaxAttempts && r.value == Spell(attempts[i])
                                      && forall j :: 0 <= j < i ==> Spell(attempts[j]) in taken
    ensures r.Failure? <==> forall i :: 0 <= i < MaxAttempts ==> Spell(attempts[i]) in taken
    ensures r.Failure? ==> r.error == ExhaustedMessage
  {
    for attempt := 0 to MaxAttempts
      invariant forall j :: 0 <= j < attempt ==> Spell(attempts[j]) in taken
    {
      var code := GenerateCode(attempts[attempt]);
      if code !in taken {
        return Success(code);
      }
    }
    return Failure(ExhaustedMessage);
  }
}
