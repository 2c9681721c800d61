/** The password builder of the generator window: the length check, the
    character pool, the guaranteed draw from every selected class, the fill
    from the pool and the final shuffle.

    The Tk variables the source reads (`length_var`, `char_options`,
    `special_mode`, `preset_var`, `custom_special_var`) are gathered in one
    `Config` value. Every random draw is an arbitrary in-range choice (`:|`),
    so what is proved holds for every outcome of the random source. */
module PasswordBuilder {
  import opened Wrappers
  import opened Text

  const Lower: string := "abcdefghijklmnopqrstuvwxyz"
  const Upper: string := "ABCDEFGHIJKLMNOPQRSTUVWXYZ"
  const Digits: string := "0123456789"

  /** The preset special-character strings, by the name the preset menu shows. */
  const SpecialPresets: map<string, string> := map[
    "常用符号" := "!@#$%^&*",
    "安全符号" := "!$%&*?@",
    "全符号" := "!@#$%^&*()_+-=[]{}|;:,.<>?"
  ]

  const MinLength: int := 4
  const MaxLength: int := 50

  /** The radio selection between a preset and the custom entry. */
  datatype SpecialMode = Preset | Custom

  /** What the window holds when "generate" is pressed. `length` is the
      result of `int()` on the length entry, `None` when `int()` raises. The
      special class has two flags, as in the source; it is on when either is. */
  datatype Config = Config(
    length: Option<int>,
    lower: bool,
    upper: bool,
    numbers: bool,
    specialPreset: bool,
    specialCustom: bool,
    mode: SpecialMode,
    presetName: string,
    custom: string)

  /** Why a press of "generate" ends without a new password: the two error
      dialogs, and the two exceptions the special-character draw can raise. */
  datatype Failure = InvalidLength | NoCharacterClass | KeyError | IndexError

  datatype Outcome = Generated(password: string) | Failed(failure: Failure)

  /** `validate_input`: the entry parses as an integer between 4 and 50. */
  predicate ValidLength(length: Option<int>) {
    length.Some? && MinLength <= length.value <= MaxLength
  }

  predicate SpecialSelected(cfg: Config) {
    cfg.specialPreset || cfg.specialCustom
  }

  /** The special characters `build_character_set` adds to the pool: the
      preset's string (empty for a name that is not a preset), or the custom
      entry stripped of surrounding whitespace. */
  function PoolSpecials(cfg: Config): string {
    if cfg.mode == Preset then
      if cfg.presetName in SpecialPresets then SpecialPresets[cfg.presetName] else ""
    else
      Strip(cfg.custom)
  }

  /** The stripped string `generate` draws the guaranteed special character
      from; `None` where the preset lookup raises `KeyError`. */
  function DrawSpecials(cfg: Config): Option<string> {
    if cfg.mode == Preset then
      if cfg.presetName in SpecialPresets then Some(Strip(SpecialPresets[cfg.presetName])) else None
    else
      Some(Strip(cfg.custom))
  }

  /** The special class can give a character: a known preset, or a custom
      entry that is not all whitespace. */
  predicate SpecialsUsable(cfg: Config) {
    if cfg.mode == Preset then cfg.presetName in SpecialPresets else !Blank(cfg.custom)
  }

  /** The alphabets of the selected classes, in the order the source visits
      them: lower case, upper case, digits, special. */
  function Classes(cfg: Config): (r: seq<string>)
    ensures |r| <= 4
    ensures |r| == (if cfg.lower then 1 else 0) + (if cfg.upper then 1 else 0)
                   + (if cfg.numbers then 1 else 0) + (if SpecialSelected(cfg) then 1 else 0)
  {
    var withLower := AppendIf(cfg.lower, [], Lower);
    var withUpper := AppendIf(cfg.upper, withLower, Upper);
    var withDigits := AppendIf(cfg.numbers, withUpper, Digits);
    AppendIf(SpecialSelected(cfg), withDigits, PoolSpecials(cfg))
  }

  function AppendIf(selected: bool, alphabets: seq<string>, alphabet: string): seq<string> {
    if selected then alphabets + [alphabet] else alphabets
  }

  function Concat(xs: seq<string>): string {
    if xs == [] then [] else xs[0] + Concat(xs[1..])
  }

  /** The character pool: the selected alphabets one after the other. */
  function Pool(cfg: Config): string {
    Concat(Classes(cfg))
  }

  /** What a press of "generate" must end in when it fails, `None` when it
      must produce a password. */
  function Verdict(cfg: Config): Option<Failure> {
    if !ValidLength(cfg.length) then Some(InvalidLength)
    else if Pool(cfg) == [] then Some(NoCharacterClass)
    else if SpecialSelected(cfg) && DrawSpecials(cfg).None? then Some(KeyError)
    else if SpecialSelected(cfg) && DrawSpecials(cfg).value == [] then Some(IndexError)
    else None
  }

  predicate Contains(pw: string, alphabet: string) {
    exists i :: 0 <= i < |pw| && pw[i] in alphabet
  }

  /** `pw` has `length` characters, all from `pool`, and at least one from
      each of `alphabets`. */
  predicate IsPasswordOver(length: int, pool: string, alphabets: seq<string>, pw: string) {
    |pw| == length &&
    (forall i :: 0 <= i < |pw| ==> pw[i] in pool) &&
    (forall k :: 0 <= k < |alphabets| ==> Contains(pw, alphabets[k]))
  }

  /** A password for `cfg`: the requested length, nothing outside the pool,
      and at least one character of every selected class. */
  predicate IsPasswordFor(cfg: Config, pw: string) {
    cfg.length.Some? && IsPasswordOver(cfg.length.value, Pool(cfg), Classes(cfg), pw)
  }

  /** The outcomes a press of "generate" may have for `cfg`. */
  predicate Admissible(cfg: Config, r: Outcome) {
    match Verdict(cfg)
    case Some(f) => r == Failed(f)
    case None => r.Generated? && IsPasswordFor(cfg, r.password)
  }

  // ---------------------------------------------------------------------
  // Lemmas about the specification

  lemma {:induction false} ConcatAppend(xs: seq<string>, ys: seq<string>)
    ensures Concat(xs + ys) == Concat(xs) + Concat(ys)
  {
    if xs == [] {
      assert xs + ys == ys;
    } else {
      assert (xs + ys)[1..] == xs[1..] + ys;
      ConcatAppend(xs[1..], ys);
    }
  }

  lemma ConcatSnoc(xs: seq<string>, x: string)
    ensures Concat(xs + [x]) == Concat(xs) + x
  {
    ConcatAppend(xs, [x]);
    assert [x][1..] == [];
  }

  lemma {:induction false} InConcat(xs: seq<string>, c: char)
    ensures c in Concat(xs) <==> exists k :: 0 <= k < |xs| && c in xs[k]
  {
    if xs != [] {
      InConcat(xs[1..], c);
      if c in Concat(xs[1..]) {
        var k :| 0 <= k < |xs[1..]| && c in xs[1..][k];
        assert c in xs[k + 1];
      }
      if exists k :: 0 <= k < |xs| && c in xs[k] {
        var k :| 0 <= k < |xs| && c in xs[k];
        if k > 0 { assert c in xs[1..][k - 1]; }
      }
    }
  }

  /** The length check: 4 and 50 pass, 3 and 51 do not, nor does an entry
      that is not an integer. */
  lemma LengthBounds()
    ensures ValidLength(Some(4)) && ValidLength(Some(50))
    ensures !ValidLength(Some(3)) && !ValidLength(Some(51)) && !ValidLength(None)
  {
  }

  /** No leakage: a character is in the pool exactly when it belongs to the
      alphabet of a selected class. */
  lemma PoolMembership(cfg: Config, c: char)
    ensures c in Pool(cfg) <==>
      (cfg.lower && c in Lower) || (cfg.upper && c in Upper) ||
      (cfg.numbers && c in Digits) || (SpecialSelected(cfg) && c in PoolSpecials(cfg))
  {
    var withLower := AppendIf(cfg.lower, [], Lower);
    var withUpper := AppendIf(cfg.upper, withLower, Upper);
    var withDigits := AppendIf(cfg.numbers, withUpper, Digits);
    InConcatAppendIf(cfg.lower, [], Lower, c);
    InConcatAppendIf(cfg.upper, withLower, Upper, c);
    InConcatAppendIf(cfg.numbers, withUpper, Digits, c);
    InConcatAppendIf(SpecialSelected(cfg), withDigits, PoolSpecials(cfg), c);
  }

  lemma InConcatAppendIf(selected: bool, alphabets: seq<string>, alphabet: string, c: char)
    ensures c in Concat(AppendIf(selected, alphabets, alphabet)) <==>
      c in Concat(alphabets) || (selected && c in alphabet)
  {
    if selected {
      ConcatSnoc(alphabets, alphabet);
    }
  }

  /** Every selected class has its alphabet among the classes. */
  lemma SelectedListed(cfg: Config)
    ensures cfg.lower ==> Lower in Classes(cfg)
    ensures cfg.upper ==> Upper in Classes(cfg)
    ensures cfg.numbers ==> Digits in Classes(cfg)
    ensures SpecialSelected(cfg) ==> PoolSpecials(cfg) in Classes(cfg)
  {
    var withLower := AppendIf(cfg.lower, [], Lower);
    var withUpper := AppendIf(cfg.upper, withLower, Upper);
    var withDigits := AppendIf(cfg.numbers, withUpper, Digits);
    assert cfg.lower ==> Lower in withLower;
    assert withLower <= withUpper <= withDigits <= Classes(cfg);
  }

  /** Every preset string is free of surrounding whitespace, so stripping it
      changes nothing. */
  lemma PresetsTrimmed(name: string)
    requires name in SpecialPresets
    ensures Strip(SpecialPresets[name]) == SpecialPresets[name] != []
  {
    var s := SpecialPresets[name];
    assert '!' <= s[0] <= '~' && '!' <= s[|s| - 1] <= '~';
    StripTrimmed(s);
  }

  /** Where the guaranteed special draw succeeds, it draws from exactly the
      special characters the pool holds. */
  lemma DrawMatchesPool(cfg: Config)
    requires DrawSpecials(cfg).Some?
    ensures DrawSpecials(cfg).value == PoolSpecials(cfg)
  {
    if cfg.mode == Preset {
      PresetsTrimmed(cfg.presetName);
    }
  }

  /** The special part of the pool is empty exactly when the special class
      cannot give a character. */
  lemma PoolSpecialsEmpty(cfg: Config)
    ensures PoolSpecials(cfg) == [] <==> !SpecialsUsable(cfg)
  {
    if cfg.mode == Preset {
      if cfg.presetName in SpecialPresets {
        PresetsTrimmed(cfg.presetName);
      }
    } else {
      StripEmptyIffBlank(cfg.custom);
    }
  }

  /** A press of "generate" yields a password exactly when the length is
      valid, some class is selected and, if the special class is, it can give
      a character. */
  lemma AcceptedIff(cfg: Config)
    ensures Verdict(cfg) == None <==>
      ValidLength(cfg.length) &&
      (cfg.lower || cfg.upper || cfg.numbers || SpecialSelected(cfg)) &&
      (SpecialSelected(cfg) ==> SpecialsUsable(cfg))
  {
    PoolSpecialsEmpty(cfg);
    if Pool(cfg) == [] {
      assert cfg.lower ==> 'a' in Pool(cfg) by { PoolMembership(cfg, 'a'); }
      assert cfg.upper ==> 'A' in Pool(cfg) by { PoolMembership(cfg, 'A'); }
      assert cfg.numbers ==> '0' in Pool(cfg) by { PoolMembership(cfg, '0'); }
    } else {
      PoolMembership(cfg, Pool(cfg)[0]);
    }
    if DrawSpecials(cfg).Some? {
      DrawMatchesPool(cfg);
    }
  }

  /** A custom special string that is all whitespace: with another class
      selected the pool is usable, but the guaranteed draw picks from an
      empty string and raises `IndexError`; alone, the pool is empty. */
  lemma BlankCustomFails(cfg: Config)
    requires ValidLength(cfg.length) && SpecialSelected(cfg)
    requires cfg.mode == Custom && Blank(cfg.custom)
    ensures Verdict(cfg) == if cfg.lower || cfg.upper || cfg.numbers
                            then Some(IndexError) else Some(NoCharacterClass)
  {
    StripEmptyIffBlank(cfg.custom);
    if cfg.lower || cfg.upper || cfg.numbers {
      var c := if cfg.lower then 'a' else if cfg.upper then 'A' else '0';
      PoolMembership(cfg, c);
    } else if Pool(cfg) != [] {
      PoolMembership(cfg, Pool(cfg)[0]);
    }
  }

  /** A preset name that is not in the table: the pool treats it as no
      special characters, but the guaranteed draw looks it up directly and
      raises `KeyError`; alone, the pool is empty. */
  lemma UnknownPresetFails(cfg: Config)
    requires ValidLength(cfg.length) && SpecialSelected(cfg)
    requires cfg.mode == Preset && cfg.presetName !in SpecialPresets
    ensures Verdict(cfg) == if cfg.lower || cfg.upper || cfg.numbers
                            then Some(KeyError) else Some(NoCharacterClass)
  {
    if cfg.lower || cfg.upper || cfg.numbers {
      var c := if cfg.lower then 'a' else if cfg.upper then 'A' else '0';
      PoolMembership(cfg, c);
    } else if Pool(cfg) != [] {
      PoolMembership(cfg, Pool(cfg)[0]);
    }
  }

  /** Every selected class is represented in a password for `cfg`. */
  lemma EveryClassRepresented(cfg: Config, pw: string)
    requires IsPasswordFor(cfg, pw)
    ensures cfg.lower ==> Contains(pw, Lower)
    ensures cfg.upper ==> Contains(pw, Upper)
    ensures cfg.numbers ==> Contains(pw, Digits)
    ensures SpecialSelected(cfg) ==> Contains(pw, PoolSpecials(cfg))
  {
    var cls := Classes(cfg);
    SelectedListed(cfg);
    forall a | a in cls ensures Contains(pw, a) {
      var k :| 0 <= k < |cls| && cls[k] == a;
    }
  }

  /** No character of a password for `cfg` comes from an unselected class. */
  lemma NoLeakage(cfg: Config, pw: string, i: int)
    requires IsPasswordFor(cfg, pw)
    requires 0 <= i < |pw|
    ensures (cfg.lower && pw[i] in Lower) || (cfg.upper && pw[i] in Upper) ||
            (cfg.numbers && pw[i] in Digits) || (SpecialSelected(cfg) && pw[i] in PoolSpecials(cfg))
  {
    PoolMembership(cfg, pw[i]);
  }

  /** Reordering a string keeps every character it has. */
  lemma {:induction false} PermutationKeeps(s: string, t: string, alphabet: string)
    requires multiset(s) == multiset(t)
    ensures |s| == |t|
    ensures Contains(s, alphabet) ==> Contains(t, alphabet)
    ensures (forall i :: 0 <= i < |s| ==> s[i] in alphabet) ==> (forall j :: 0 <= j < |t| ==> t[j] in alphabet)
  {
    assert |s| == |multiset(s)| == |multiset(t)| == |t|;
    if Contains(s, alphabet) {
      var i :| 0 <= i < |s| && s[i] in alphabet;
      assert s[i] in multiset(t);
      var j :| 0 <= j < |t| && t[j] == s[i];
    }
    if forall i :: 0 <= i < |s| ==> s[i] in alphabet {
      forall j | 0 <= j < |t| ensures t[j] in alphabet {
        assert t[j] in multiset(s);
      }
    }
  }

  /** The k-th character of `drawn` comes from the k-th alphabet. */
  predicate DrawnFrom(drawn: string, alphabets: seq<string>) {
    |drawn| == |alphabets| && forall k :: 0 <= k < |drawn| ==> drawn[k] in alphabets[k]
  }

  lemma DrawnSnoc(drawn: string, alphabets: seq<string>, c: char, alphabet: string)
    requires DrawnFrom(drawn, alphabets) && c in alphabet
    ensures DrawnFrom(drawn + [c], alphabets + [alphabet])
  {
  }

  /** Every guaranteed character is in the pool. */
  lemma DrawnInPool(cfg: Config, head: string)
    requires DrawnFrom(head, Classes(cfg))
    ensures forall i :: 0 <= i < |head| ==> head[i] in Pool(cfg)
  {
    forall i | 0 <= i < |head| ensures head[i] in Pool(cfg) {
      InConcat(Classes(cfg), head[i]);
    }
  }

  /** An empty pool after a valid length is the outcome `Verdict` prescribes. */
  lemma EmptyPoolAdmissible(cfg: Config)
    requires ValidLength(cfg.length) && Pool(cfg) == []
    ensures Admissible(cfg, Failed(NoCharacterClass))
  {
  }

  /** A failure of the guaranteed special draw is the outcome `Verdict`
      prescribes once the length and the pool have passed. */
  lemma DrawFailureAdmissible(cfg: Config, f: Failure)
    requires ValidLength(cfg.length) && Pool(cfg) != [] && SpecialSelected(cfg)
    requires DrawSpecials(cfg).None? || DrawSpecials(cfg).value == []
    requires f == if DrawSpecials(cfg).None? then KeyError else IndexError
    ensures Admissible(cfg, Failed(f))
  {
  }

  /** A string of the requested length, from the pool, that contains the
      guaranteed characters is a password for `cfg` and an admissible
      outcome. */
  lemma AssembledPassword(cfg: Config, guaranteed: string, password: string)
    requires ValidLength(cfg.length) && Pool(cfg) != []
    requires !SpecialSelected(cfg) || (DrawSpecials(cfg).Some? && DrawSpecials(cfg).value != [])
    requires DrawnFrom(guaranteed, Classes(cfg))
    requires |password| == cfg.length.value
    requires forall i :: 0 <= i < |password| ==> password[i] in Pool(cfg)
    requires multiset(guaranteed) <= multiset(password)
    ensures Admissible(cfg, Generated(password))
  {
    var cls := Classes(cfg);
    forall k | 0 <= k < |cls| ensures Contains(password, cls[k]) {
      assert guaranteed[k] in multiset(password);
    }
    assert IsPasswordOver(cfg.length.value, Pool(cfg), cls, password);
  }

  /** `random.choice(s)`: some character of `s`; `None` where Python raises
      `IndexError` because `s` is empty. */
  method Choice(s: string) returns (r: Option<char>)
    ensures r.None? <==> s == []
    ensures r.Some? ==> r.value in s
  {
    if s == [] {
      return None;
    }
    var i :| 0 <= i < |s|;
    r := Some(s[i]);
  }

  /** `random.choices(pool, k=count)`: `count` draws with replacement. */
  method Choices(pool: string, count: nat) returns (drawn: string)
    requires pool != []
    ensures |drawn| == count
    ensures forall i :: 0 <= i < |drawn| ==> drawn[i] in pool
  {
    drawn := [];
    var n := 0;
    while n < count
      invariant n <= count
      invariant |drawn| == n
      invariant forall i :: 0 <= i < |drawn| ==> drawn[i] in pool
    {
      var j :| 0 <= j < |pool|;
      drawn := drawn + [pool[j]];
      n := n + 1;
    }
  }

  /** `random.shuffle`: Fisher–Yates from the back, swapping each position
      with one at or before it. */
  method Shuffle(a: array<char>)
    modifies a
    ensures multiset(a[..]) == old(multiset(a[..]))
  {
    var i := a.Length;
    while i > 1
      invariant 0 <= i <= a.Length
      invariant multiset(a[..]) == old(multiset(a[..]))
    {
      i := i - 1;
      var j :| 0 <= j <= i;
      a[i], a[j] := a[j], a[i];
    }
  }

  /** `random.shuffle` on the list of characters, joined back into a string. */
  method ShuffleString(s: string) returns (t: string)
    ensures multiset(t) == multiset(s)
  {
    var buffer := new char[|s|](i requires 0 <= i < |s| => s[i]);
    assert buffer[..] == s;
    Shuffle(buffer);
    t := buffer[..];
  }

  /** `build_character_set`: the pool, or `None` (the "select at least one
      character type" dialog) when it would be empty. */
  method BuildCharacterSet(cfg: Config) returns (pool: Option<string>)
    ensures pool == if Pool(cfg) == [] then None else Some(Pool(cfg))
  {
    var charPool: string := [];
    ghost var visited: seq<string> := [];
    if cfg.lower {
      ConcatSnoc(visited, Lower);
      charPool, visited := charPool + Lower, visited + [Lower];
    }
    assert charPool == Concat(visited);
    if cfg.upper {
      ConcatSnoc(visited, Upper);
      charPool, visited := charPool + Upper, visited + [Upper];
    }
    assert charPool == Concat(visited);
    if cfg.numbers {
      ConcatSnoc(visited, Digits);
      charPool, visited := charPool + Digits, visited + [Digits];
    }
    assert charPool == Concat(visited);
    if SpecialSelected(cfg) {
      var specialChars := PoolSpecials(cfg);
      ConcatSnoc(visited, specialChars);
      if specialChars != [] {
        charPool := charPool + specialChars;
      } else {
        assert Concat(visited) + specialChars == Concat(visited);
      }
      visited := visited + [specialChars];
    }
    assert charPool == Concat(visited);
    assert visited == Classes(cfg);
    if charPool == [] {
      return None;
    }
    pool := Some(charPool);
  }

  /** The first part of `generate`: one character from each selected class's
      own alphabet, in class order. The special character is drawn from the
      stripped preset or custom string, which raises `KeyError` for an unknown
      preset name and `IndexError` for a blank string. */
  method GuaranteedDraws(cfg: Config) returns (r: Result<string, Failure>)
    ensures r.Failure? <==> SpecialSelected(cfg) && (DrawSpecials(cfg).None? || DrawSpecials(cfg).value == [])
    ensures r.Failure? ==> r.error == if DrawSpecials(cfg).None? then KeyError else IndexError
    ensures r.Success? ==> DrawnFrom(r.value, Classes(cfg)) && |r.value| <= 4
  {
    var password: string := [];
    ghost var visited: seq<string> := [];
    if cfg.lower {
      var c := Choice(Lower);
      DrawnSnoc(password, visited, c.value, Lower);
      password := password + [c.value];
    }
    visited := AppendIf(cfg.lower, visited, Lower);
    if cfg.upper {
      var c := Choice(Upper);
      DrawnSnoc(password, visited, c.value, Upper);
      password := password + [c.value];
    }
    visited := AppendIf(cfg.upper, visited, Upper);
    if cfg.numbers {
      var c := Choice(Digits);
      DrawnSnoc(password, visited, c.value, Digits);
      password := password + [c.value];
    }
    visited := AppendIf(cfg.numbers, visited, Digits);
    if SpecialSelected(cfg) {
      var source := DrawSpecials(cfg);
      if source.None? {
        return Failure(KeyError);
      }
      var c := Choice(source.value);
      if c.None? {
        return Failure(IndexError);
      }
      DrawMatchesPool(cfg);
      DrawnSnoc(password, visited, c.value, PoolSpecials(cfg));
      password := password + [c.value];
    }
    visited := AppendIf(SpecialSelected(cfg), visited, PoolSpecials(cfg));
    r := Success(password);
  }

  /** The end of `generate`: fill the buffer up to `length` with draws from
      the pool, then shuffle it. The guaranteed characters are kept, so
      every alphabet they represent is still represented. */
  method FillAndShuffle(pool: string, guaranteed: string, length: int) returns (password: string)
    requires pool != [] && |guaranteed| <= length
    requires forall i :: 0 <= i < |guaranteed| ==> guaranteed[i] in pool
    ensures |password| == length
    ensures forall i :: 0 <= i < |password| ==> password[i] in pool
    ensures multiset(guaranteed) <= multiset(password)
  {
    var remaining := length - |guaranteed|;
    var rest := Choices(pool, remaining);
    var buffer := guaranteed + rest;
    forall i | 0 <= i < |buffer| ensures buffer[i] in pool {
      if i >= |guaranteed| {
        assert buffer[i] == rest[i - |guaranteed|];
      }
    }
    password := ShuffleString(buffer);
    PermutationKeeps(buffer, password, pool);
  }

  /** `generate`: validate, build the pool, draw the guaranteed characters,
      fill the rest from the pool and shuffle. Every outcome is one the
      specification admits: the failure `Verdict` names, or a password of the
      requested length drawn from the pool with every selected class in it. */
  method BuildPassword(cfg: Config) returns (r: Outcome)
    ensures Admissible(cfg, r)
  {
    if !ValidLength(cfg.length) {
      return Failed(InvalidLength);
    }
    var charPool := BuildCharacterSet(cfg);
    if charPool.None? {
      EmptyPoolAdmissible(cfg);
      return Failed(NoCharacterClass);
    }
    var length := cfg.length.value;
    var guaranteed := GuaranteedDraws(cfg);
    if guaranteed.Failure? {
      DrawFailureAdmissible(cfg, guaranteed.error);
      return Failed(guaranteed.error);
    }
    DrawnInPool(cfg, guaranteed.value);
    var password := FillAndShuffle(charPool.value, guaranteed.value, length);
    AssembledPassword(cfg, guaranteed.value, password);
    r := Generated(password);
  }
}
