/**
 * The level filter of the console logger (src/utils/logger.js): the
 * `LOG_LEVEL` setting is parsed once, and a message at some level is written
 * only when the parsed threshold reaches that level's rank. What is written
 * (console output, timestamps) is an effect outside the model.
 */
module Logger {
  import opened Wrappers

  datatype Level = Error | Warn | Info | Debug

  /** `LOG_LEVELS`: the more severe the level, the smaller its rank. */
  function Rank(l: Level): nat
  {
    match l
    case Error => 0
    case Warn => 1
    case Info => 2
    case Debug => 3
  }

  /** The key of a level in `LOG_LEVELS`. */
  function Name(l: Level): string
  {
    match l
    case Error => "ERROR"
    case Warn => "WARN"
    case Info => "INFO"
    case Debug => "DEBUG"
  }

  /** `LOG_LEVELS[key]`: a rank, or `undefined` for any other key. */
  function LookupRank(key: string): (r: Option<nat>)
    ensures r.Some? <==> exists l: Level :: Name(l) == key
    ensures forall l: Level :: Name(l) == key ==> r == Some(Rank(l))
  {
    if key == "ERROR" then assert Name(Error) == key; Some(0)
    else if key == "WARN" then assert Name(Warn) == key; Some(1)
    else if key == "INFO" then assert Name(Info) == key; Some(2)
    else if key == "DEBUG" then assert Name(Debug) == key; Some(3)
    else None
  }

  function UpperChar(c: char): char
  {
    if 'a' <= c <= 'z' then (c as int - 32) as char else c
  }

  /** `toUpperCase()` on the ASCII letters. */
  function ToUpper(s: string): (u: string)
    ensures |u| == |s|
  {
    seq(|s|, i requires 0 <= i < |s| => UpperChar(s[i]))
  }

  /**
   * `currentLevel`: `LOG_LEVEL ? LOG_LEVELS[LOG_LEVEL.toUpperCase()] || INFO : INFO`.
   * `None` is an unset variable.
   */
  function CurrentLevel(env: Option<string>): (r: nat)
    ensures r == Rank(Info)
            || (env.Some? && exists l: Level :: l != Error && Name(l) == ToUpper(env.value) && r == Rank(l))
  {
    match env
    case None => Rank(Info)
    case Some(s) =>
      if s == "" then Rank(Info)
      else
        var rank := LookupRank(ToUpper(s));
        if rank.Some? && rank.value != 0 then rank.value else Rank(Info)
  }

  /** The guard of `logger.error`, `.warn`, `.info` and `.debug`. */
  predicate ShouldEmit(current: int, l: Level)
  {
    current >= Rank(l)
  }

  /** Every setting parses to WARN, INFO or DEBUG; ERROR is never the threshold. */
  lemma CurrentLevelRange(env: Option<string>)
    ensures Rank(Warn) <= CurrentLevel(env) <= Rank(Debug)
  {
  }

  /** Errors are written whatever `LOG_LEVEL` says. */
  lemma ErrorsAlwaysEmitted(env: Option<string>)
    ensures ShouldEmit(CurrentLevel(env), Error)
  {
    CurrentLevelRange(env);
  }

  /** Whenever a level is written, so is every more severe level. */
  lemma EmitMonotone(current: int, l: Level, m: Level)
    requires ShouldEmit(current, l)
    requires Rank(m) <= Rank(l)
    ensures ShouldEmit(current, m)
  {
  }

  /** An unset, empty or unrecognised `LOG_LEVEL` gives INFO. */
  lemma DefaultIsInfo(env: Option<string>)
    requires env.None? || env.value == "" || LookupRank(ToUpper(env.value)).None?
    ensures CurrentLevel(env) == Rank(Info)
  {
  }

  /**
   * The setting is matched whatever its letter case: any spelling whose
   * upper-case form names WARN, INFO or DEBUG gives that level's rank.
   */
  lemma CaseInsensitive(s: string, l: Level)
    requires ToUpper(s) == Name(l)
    requires l != Error
    ensures CurrentLevel(Some(s)) == Rank(l)
  {
    assert s != "" by { assert |ToUpper(s)| == |Name(l)| > 0; }
  }

  /** Two settings with the same upper-case form select the same threshold. */
  lemma SameUpperSameLevel(s: string, t: string)
    requires ToUpper(s) == ToUpper(t)
    ensures CurrentLevel(Some(s)) == CurrentLevel(Some(t))
  {
    assert |s| == |ToUpper(s)| == |ToUpper(t)| == |t|;
  }

  /**
   * As written, `LOG_LEVEL=error` selects INFO: the rank of ERROR is 0, which
   * `|| LOG_LEVELS.INFO` treats as missing, so warnings and info messages are
   * still written.
   */
  lemma ErrorSettingGivesInfo()
    ensures CurrentLevel(Some("error")) == Rank(Info)
    ensures ShouldEmit(CurrentLevel(Some("error")), Warn)
    ensures ShouldEmit(CurrentLevel(Some("error")), Info)
  {
    assert ToUpper("error") == "ERROR";
  }

  /** The evidently intended parse: a recognised name selects its own rank, ERROR included. */
  function CurrentLevelIntended(env: Option<string>): nat
  {
    match env
    case None => Rank(Info)
    case Some(s) =>
      if s == "" then Rank(Info)
      else
        var rank := LookupRank(ToUpper(s));
        if rank.Some? then rank.value else Rank(Info)
  }

  /**
   * Under the intended parse, naming a level in any letter case writes exactly
   * the messages at that level or a more severe one.
   */
  lemma IntendedSelectsNamedLevel(s: string, l: Level, m: Level)
    requires ToUpper(s) == Name(l)
    ensures CurrentLevelIntended(Some(s)) == Rank(l)
    ensures ShouldEmit(CurrentLevelIntended(Some(s)), m) <==> Rank(m) <= Rank(l)
  {
    assert s != "" by { assert |ToUpper(s)| == |Name(l)| > 0; }
  }
}
