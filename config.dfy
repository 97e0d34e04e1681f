/**
 * Game configuration: board size `n`, win length `k` and the two player
 * symbols, with the two ways of obtaining one: silent sanitisation of values
 * restored from storage, and strict validation of settings the user submits.
 * Numbers arrive as `Option<int>` (`None` is a value `parseInt` cannot read),
 * symbols as `Option<string>` (`None` is a falsy value).
 */
module Config {
  import opened Wrappers

  datatype Prefs = Prefs(n: int, k: int, player1Symbol: char, player2Symbol: char)

  datatype Scores = Scores(player1: int, player2: int, ties: int)

  /** Preferences as restored from storage: every field may be missing or unreadable. */
  datatype RawPrefs = RawPrefs(n: Option<int>, k: Option<int>,
                               player1Symbol: Option<string>, player2Symbol: Option<string>)

  datatype RawScores = RawScores(player1: Option<int>, player2: Option<int>, ties: Option<int>)

  datatype ConfigError = SymbolCollision | InvalidAlignment

  const MIN_SIZE := 3
  const MAX_SIZE := 10
  const MIN_ALIGNMENT := 3
  const DEFAULT_PLAYER1 := 'X'
  const DEFAULT_PLAYER2 := 'O'
  const DEFAULT_PREFS := Prefs(3, 3, 'X', 'O')
  const DEFAULT_SCORES := Scores(0, 0, 0)

  /** The ECMAScript WhiteSpace and LineTerminator code points, which `String.prototype.trim` removes. */
  predicate IsWhitespace(c: char) {
    || c == '\t' || c == '\n' || c == '\U{000B}' || c == '\U{000C}' || c == '\r'
    || c == ' ' || c == '\U{00A0}' || c == '\U{1680}'
    || ('\U{2000}' <= c <= '\U{200A}')
    || c == '\U{2028}' || c == '\U{2029}' || c == '\U{202F}' || c == '\U{205F}'
    || c == '\U{3000}' || c == '\U{FEFF}'
  }

  /** What a configuration must satisfy for the game to be played on it. */
  predicate ValidPrefs(p: Prefs) {
    && MIN_SIZE <= p.n <= MAX_SIZE
    && MIN_ALIGNMENT <= p.k <= p.n
    && !IsWhitespace(p.player1Symbol)
    && !IsWhitespace(p.player2Symbol)
    && p.player1Symbol != p.player2Symbol
  }

  /** `s` with its leading whitespace removed. */
  function TrimStart(s: string): (r: string)
    ensures |r| <= |s| && r == s[|s| - |r|..]
    ensures forall i :: 0 <= i < |s| - |r| ==> IsWhitespace(s[i])
    ensures r == [] || !IsWhitespace(r[0])
  {
    if |s| > 0 && IsWhitespace(s[0]) then TrimStart(s[1..]) else s
  }

  /** `s` with its trailing whitespace removed. */
  function TrimEnd(s: string): (r: string)
    ensures |r| <= |s| && r == s[..|r|]
    ensures forall i :: |r| <= i < |s| ==> IsWhitespace(s[i])
    ensures r == [] || !IsWhitespace(r[|r| - 1])
  {
    if |s| > 0 && IsWhitespace(s[|s| - 1]) then TrimEnd(s[..|s| - 1]) else s
  }

  /** JavaScript's `String.prototype.trim`: empty, or starting and ending with a non-whitespace character. */
  function Trim(s: string): (r: string)
    ensures r == [] || (!IsWhitespace(r[0]) && !IsWhitespace(r[|r| - 1]))
  {
    TrimEnd(TrimStart(s))
  }

  /** `parseInt(value, 10)` when it yields a finite number, `fallback` otherwise. */
  function ToInt(value: Option<int>, fallback: int): (r: int)
    ensures value.Some? ==> r == value.value
    ensures value.None? ==> r == fallback
  {
    value.GetOr(fallback)
  }

  /** The first character of the trimmed value, or `None` (the empty string) when there is none. */
  function NormalizeSymbol(value: Option<string>): (r: Option<char>)
    ensures r.Some? ==> !IsWhitespace(r.value)
  {
    match value
    case None => None
    case Some(s) =>
      var t := Trim(s);
      if |t| == 0 then None else Some(t[0])
  }

  /** `value` read as an integer (falling back to `min`) and forced into `[min, max]`; `min` wins when `min > max`. */
  function ClampNumber(value: Option<int>, min: int, max: int): (r: int)
    ensures min <= r
    ensures min <= max ==> r <= max
    ensures value.None? ==> r == min
    ensures value.Some? && min <= value.value <= max ==> r == value.value
    ensures value.Some? && value.value < min ==> r == min
    ensures value.Some? && max < value.value ==> r == if min <= max then max else min
  {
    var num := ToInt(value, min);
    Max(min, Min(max, num))
  }

  function Min(a: int, b: int): int { if a <= b then a else b }

  function Max(a: int, b: int): int { if a >= b then a else b }

  /** The symbol a player gets: `normalizeSymbol(value) || default`. */
  function SymbolOr(value: Option<string>, default: char): (c: char)
    ensures value.None? ==> c == default
    ensures c == default || !IsWhitespace(c)
  {
    NormalizeSymbol(value).GetOr(default)
  }

  /**
   * A player's symbol is the first non-whitespace character of the input, or
   * the default when the input is all whitespace.
   */
  lemma SymbolOrIsFirstNonSpace(s: string, default: char)
    ensures var i := |s| - |TrimStart(s)|;
            SymbolOr(Some(s), default) == if i < |s| then s[i] else default
  {
    NormalizeSymbolIsFirstNonSpace(s);
  }

  /**
   * Repairs preferences restored from storage: `n` forced into [3, 10], `k`
   * into [3, n], missing symbols replaced by X and O, and a second symbol
   * equal to the first replaced by whichever of X and O differs from it.
   */
  method SanitizePrefs(raw: RawPrefs) returns (p: Prefs)
    ensures ValidPrefs(p)
    ensures RepairedFrom(raw, p)
    ensures raw.n.Some? && MIN_SIZE <= raw.n.value <= MAX_SIZE ==> p.n == raw.n.value
    ensures raw.n.Some? && raw.n.value < MIN_SIZE ==> p.n == MIN_SIZE
    ensures raw.n.Some? && MAX_SIZE < raw.n.value ==> p.n == MAX_SIZE
    ensures raw.n.None? ==> p.n == MIN_SIZE
    ensures raw.k.Some? && MIN_ALIGNMENT <= raw.k.value <= p.n ==> p.k == raw.k.value
    ensures raw.k.Some? && raw.k.value < MIN_ALIGNMENT ==> p.k == MIN_ALIGNMENT
    ensures raw.k.Some? && p.n < raw.k.value ==> p.k == p.n
    ensures raw.k.None? ==> p.k == MIN_ALIGNMENT
  {
    var n := ClampNumber(raw.n, MIN_SIZE, MAX_SIZE);
    var k := ClampNumber(raw.k, MIN_ALIGNMENT, n);
    var player1Symbol := SymbolOr(raw.player1Symbol, DEFAULT_PLAYER1);
    var player2Symbol := SymbolOr(raw.player2Symbol, DEFAULT_PLAYER2);
    if player1Symbol == player2Symbol {
      player2Symbol := if player2Symbol == DEFAULT_PLAYER1 then DEFAULT_PLAYER2 else DEFAULT_PLAYER1;
    }
    p := Prefs(n, k, player1Symbol, player2Symbol);
  }

  /**
   * The preferences `p` are the repair of `raw`: `n` clamped into [3, 10],
   * `k` into [3, n], the symbols normalised with X and O as defaults, and a
   * second symbol equal to the first replaced by the other of X and O (by X
   * when the first is neither).
   */
  predicate RepairedFrom(raw: RawPrefs, p: Prefs) {
    && p.n == ClampNumber(raw.n, MIN_SIZE, MAX_SIZE)
    && p.k == ClampNumber(raw.k, MIN_ALIGNMENT, p.n)
    && p.player1Symbol == SymbolOr(raw.player1Symbol, DEFAULT_PLAYER1)
    && (SymbolOr(raw.player2Symbol, DEFAULT_PLAYER2) != p.player1Symbol
        ==> p.player2Symbol == SymbolOr(raw.player2Symbol, DEFAULT_PLAYER2))
    && (SymbolOr(raw.player2Symbol, DEFAULT_PLAYER2) == p.player1Symbol
        ==> p.player2Symbol == if p.player1Symbol == DEFAULT_PLAYER1 then DEFAULT_PLAYER2 else DEFAULT_PLAYER1)
  }

  /** Scores restored from storage: each tally read as an integer, 0 when unreadable. */
  function SanitizeScores(raw: RawScores): (s: Scores)
    ensures raw.player1.Some? ==> s.player1 == raw.player1.value
    ensures raw.player2.Some? ==> s.player2 == raw.player2.value
    ensures raw.ties.Some? ==> s.ties == raw.ties.value
    ensures raw.player1.None? ==> s.player1 == 0
    ensures raw.player2.None? ==> s.player2 == 0
    ensures raw.ties.None? ==> s.ties == 0
    ensures raw == RawScores(None, None, None) ==> s == DEFAULT_SCORES
  {
    Scores(ToInt(raw.player1, 0), ToInt(raw.player2, 0), ToInt(raw.ties, 0))
  }

  /**
   * Strict check of the settings the user submits. `n` is forced into
   * [3, 10] and `k` into [3, n] (an unreadable input keeps the current
   * value); equal symbols are refused. The `k > n` test comes after the
   * clamp of `k` to `n` and so never fails.
   */
  function ValidateSettings(current: Prefs, nInput: Option<int>, kInput: Option<int>,
                            p1Input: Option<string>, p2Input: Option<string>): (r: Result<Prefs, ConfigError>)
    ensures r.Success? ==> ValidPrefs(r.value)
    ensures (r == Failure(SymbolCollision)
             <==> SymbolOr(p1Input, DEFAULT_PLAYER1) == SymbolOr(p2Input, DEFAULT_PLAYER2))
    ensures r != Failure(InvalidAlignment)
    ensures r.Success? ==> && r.value.player1Symbol == SymbolOr(p1Input, DEFAULT_PLAYER1)
                           && r.value.player2Symbol == SymbolOr(p2Input, DEFAULT_PLAYER2)
    ensures r.Success? && nInput.Some? && MIN_SIZE <= nInput.value <= MAX_SIZE ==> r.value.n == nInput.value
    ensures r.Success? && nInput.None? && MIN_SIZE <= current.n <= MAX_SIZE ==> r.value.n == current.n
    ensures r.Success? && kInput.Some? && MIN_ALIGNMENT <= kInput.value <= r.value.n ==> r.value.k == kInput.value
    ensures r.Success? && kInput.None? && MIN_ALIGNMENT <= current.k <= r.value.n ==> r.value.k == current.k
    ensures (r.Success? ==>
               && r.value.n == ClampNumber(Some(ToInt(nInput, current.n)), MIN_SIZE, MAX_SIZE)
               && r.value.k == ClampNumber(Some(ToInt(kInput, current.k)), MIN_ALIGNMENT, r.value.n))
    ensures r.Success? && nInput.Some? && nInput.value < MIN_SIZE ==> r.value.n == MIN_SIZE
    ensures r.Success? && nInput.Some? && MAX_SIZE < nInput.value ==> r.value.n == MAX_SIZE
    ensures r.Success? && kInput.Some? && kInput.value < MIN_ALIGNMENT ==> r.value.k == MIN_ALIGNMENT
    ensures r.Success? && kInput.Some? && r.value.n < kInput.value ==> r.value.k == r.value.n
  {
    var newN := ClampNumber(Some(ToInt(nInput, current.n)), MIN_SIZE, MAX_SIZE);
    var newK := ClampNumber(Some(ToInt(kInput, current.k)), MIN_ALIGNMENT, newN);
    var p1 := SymbolOr(p1Input, DEFAULT_PLAYER1);
    var p2 := SymbolOr(p2Input, DEFAULT_PLAYER2);
    if p1 == p2 then Failure(SymbolCollision)
    else if newK > newN then Failure(InvalidAlignment)
    else Success(Prefs(newN, newK, p1, p2))
  }

  /** The symbol is the first non-whitespace character of the input, and none exists exactly when it is empty. */
  lemma NormalizeSymbolIsFirstNonSpace(s: string)
    ensures NormalizeSymbol(Some(s)).None? <==> forall i :: 0 <= i < |s| ==> IsWhitespace(s[i])
    ensures NormalizeSymbol(Some(s)).Some? ==>
              var i := |s| - |TrimStart(s)|;
              && 0 <= i < |s| && s[i] == NormalizeSymbol(Some(s)).value
              && forall j :: 0 <= j < i ==> IsWhitespace(s[j])
  {
    var u := TrimStart(s);
    var t := TrimEnd(u);
    if |u| > 0 {
      assert !IsWhitespace(u[0]);
      assert |t| > 0;
      assert t[0] == u[0] == s[|s| - |u|];
    } else {
      assert t == [];
    }
  }

  /** A single non-whitespace character is its own normal form. */
  lemma NormalizeSingle(c: char)
    requires !IsWhitespace(c)
    ensures NormalizeSymbol(Some([c])) == Some(c)
  {
    assert TrimStart([c]) == [c];
    assert TrimEnd([c]) == [c];
  }

  /** Normalising a symbol that normalisation produced gives it back. */
  lemma NormalizeSymbolIdempotent(value: Option<string>)
    requires NormalizeSymbol(value).Some?
    ensures NormalizeSymbol(Some([NormalizeSymbol(value).value])) == NormalizeSymbol(value)
  {
    NormalizeSingle(NormalizeSymbol(value).value);
  }

  /** Clamping a clamped value changes nothing. */
  lemma ClampNumberIdempotent(value: Option<int>, min: int, max: int)
    ensures ClampNumber(Some(ClampNumber(value, min, max)), min, max) == ClampNumber(value, min, max)
  {
  }

  /** Submitting the current valid settings again yields exactly them. */
  lemma ValidateSettingsKeepsCurrent(p: Prefs)
    requires ValidPrefs(p)
    ensures ValidateSettings(p, None, None, Some([p.player1Symbol]), Some([p.player2Symbol])) == Success(p)
  {
    NormalizeSingle(p.player1Symbol);
    NormalizeSingle(p.player2Symbol);
  }
}
