/** Names of owner folders (src/apps/drive/naming.py): fitting a name to the allowed length, and finding a free one. */
module Naming {
  import opened Wrappers

  // ---------------------------------------------------------------- Python strings

  /** s[:n]; a negative n counts from the end. */
  function Head(s: string, n: int): (r: string)
    ensures r <= s
    ensures n >= 0 ==> |r| == if n <= |s| then n else |s|
  {
    var end := if n >= 0 then n else |s| + n;
    if end <= 0 then "" else if end <= |s| then s[..end] else s
  }

  function RStrip(s: string, chars: string): (r: string)
    ensures r <= s
    ensures r != "" ==> r[|r| - 1] !in chars
    ensures forall k :: |r| <= k < |s| ==> s[k] in chars
    decreases |s|
  {
    if s != "" && s[|s| - 1] in chars then RStrip(s[..|s| - 1], chars) else s
  }

  function Digits(n: nat): (s: string)
    ensures '_' !in s && s != ""
  {
    var d := ("0123456789")[n % 10];
    if n < 10 then [d] else Digits(n / 10) + [d]
  }

  function DigitValue(c: char): nat {
    if '0' <= c <= '9' then c as int - '0' as int else 0
  }

  function Value(s: string): nat {
    if s == "" then 0 else Value(s[..|s| - 1]) * 10 + DigitValue(s[|s| - 1])
  }

  lemma {:induction false} DigitsValue(n: nat)
    ensures Value(Digits(n)) == n
  {
    assert DigitValue(("0123456789")[n % 10]) == n % 10;
    if n >= 10 {
      DigitsValue(n / 10);
      assert Digits(n)[..|Digits(n)| - 1] == Digits(n / 10);
    } else {
      assert Digits(n)[..0] == "";
    }
  }

  /** What follows the last underscore. */
  function AfterLast(s: string): string
    decreases |s|
  {
    if s == "" || s[|s| - 1] == '_' then "" else AfterLast(s[..|s| - 1]) + [s[|s| - 1]]
  }

  lemma {:induction false} AfterLastIs(s: string, t: string)
    requires '_' !in t
    ensures AfterLast(s + "_" + t) == t
    decreases |t|
  {
    var all := s + "_" + t;
    if t == "" {
      assert all[|all| - 1] == '_';
    } else {
      AfterLastIs(s, t[..|t| - 1]);
      assert all[..|all| - 1] == s + "_" + t[..|t| - 1];
      assert t == t[..|t| - 1] + [t[|t| - 1]];
    }
  }

  // ---------------------------------------------------------------- fitting the length

  datatype Config = Config(maxNames: int, separator: string, overflow: string, maxLength: int, yearFirst: bool)

  function Joined(names: seq<string>, separator: string): string {
    if names == [] then "" else if |names| == 1 then names[0] else names[0] + separator + Joined(names[1..], separator)
  }

  function Shortened(names: seq<string>, cfg: Config): string
    requires names != []
  {
    names[0] + cfg.separator + cfg.overflow
  }

  function JoinNames(names: seq<string>, cfg: Config): string
    requires names != []
  {
    if |names| <= cfg.maxNames then Joined(names, cfg.separator) else Shortened(names, cfg)
  }

  function Tagged(prefix: string, namePart: string): string {
    if prefix == "" then namePart else prefix + "_" + namePart
  }

  /** The name part that is cut when nothing fits. */
  function NamePart(names: seq<string>, cfg: Config): string
    requires names != []
  {
    if |names| > 1 then Shortened(names, cfg) else JoinNames(names, cfg)
  }

  function FitLength(prefix: string, names: seq<string>, cfg: Config): string
    requires names != []
  {
    if |Tagged(prefix, JoinNames(names, cfg))| <= cfg.maxLength then Tagged(prefix, JoinNames(names, cfg))
    else if |names| > 1 && |Tagged(prefix, Shortened(names, cfg))| <= cfg.maxLength then Tagged(prefix, Shortened(names, cfg))
    else CutName(prefix, NamePart(names, cfg), cfg.maxLength)
  }

  function Room(prefix: string, maxLength: int): int {
    maxLength - (if prefix == "" then 0 else |prefix| + 1)
  }

  function ShortToken(prefix: string, maxLength: int): string {
    var token := Head(prefix, if maxLength - 4 > 1 then maxLength - 4 else 1);
    if RStrip(token, " .-_") != "" then RStrip(token, " .-_") else token
  }

  /** The token in front of a name that must be cut. */
  function CutToken(prefix: string, maxLength: int): string {
    if prefix != "" && Room(prefix, maxLength) < 3 then ShortToken(prefix, maxLength) else prefix
  }

  function CutName(prefix: string, namePart: string, maxLength: int): string {
    var token := CutToken(prefix, maxLength);
    var room := Room(token, maxLength);
    if room <= 0 then Head(Tagged(prefix, namePart), maxLength)
    else Tagged(token, RStrip(Head(namePart, room), " .-"))
  }

  /** A name never exceeds the allowed length. */
  lemma FitLengthFits(prefix: string, names: seq<string>, cfg: Config)
    requires names != [] && cfg.maxLength >= 0
    ensures |FitLength(prefix, names, cfg)| <= cfg.maxLength
  {
  }

  /** Neither the full name nor the shortened one fits. */
  predicate MustCut(prefix: string, names: seq<string>, cfg: Config)
    requires names != []
  {
    && |Tagged(prefix, JoinNames(names, cfg))| > cfg.maxLength
    && (|names| > 1 ==> |Tagged(prefix, Shortened(names, cfg))| > cfg.maxLength)
  }

  /** What stands in front of the name part: the unit token or its beginning. */
  function Token(prefix: string, names: seq<string>, cfg: Config): (token: string)
    requires names != []
    ensures token <= prefix && (token == "" <==> prefix == "")
    ensures |prefix| + 4 <= cfg.maxLength || !MustCut(prefix, names, cfg) ==> token == prefix
  {
    if MustCut(prefix, names, cfg) then CutToken(prefix, cfg.maxLength) else prefix
  }

  /** The name begins with its token and the separator, unless the limit does not even leave room for one letter each. */
  lemma TokenKeptIff(prefix: string, names: seq<string>, cfg: Config)
    requires names != [] && prefix != "" && cfg.maxLength >= 0
    ensures Token(prefix, names, cfg) + "_" <= FitLength(prefix, names, cfg) <==>
            !MustCut(prefix, names, cfg) || cfg.maxLength >= 3 || (cfg.maxLength == 2 && (prefix + "_")[1] == '_')
  {
    hide RStrip;
    var token := Token(prefix, names, cfg);
    if !MustCut(prefix, names, cfg) {
      assert token + "_" <= prefix + "_" + JoinNames(names, cfg);
      assert token + "_" <= prefix + "_" + Shortened(names, cfg);
    } else if cfg.maxLength >= 3 {
      assert token + "_" <= token + "_" + RStrip(Head(NamePart(names, cfg), Room(token, cfg.maxLength)), " .-");
    } else {
      var all := prefix + "_" + NamePart(names, cfg);
      assert |token| == 1 && token[0] == prefix[0];
      assert FitLength(prefix, names, cfg) == all[..cfg.maxLength];
      assert (prefix + "_")[1] == all[1];
    }
  }

  /** What `kept` leaves of a text cut to `room` characters: all of it up to the last character that is not one of `chars`. */
  ghost predicate CutTo(text: string, room: nat, chars: string, kept: string) {
    && kept <= text && |kept| <= room && (kept != "" ==> kept[|kept| - 1] !in chars)
    && forall k :: |kept| <= k < room && k < |text| ==> text[k] in chars
  }

  lemma CutIs(text: string, room: nat, chars: string)
    ensures CutTo(text, room, chars, RStrip(Head(text, room), chars))
  {
    hide RStrip;
    var head := Head(text, room);
    var kept := RStrip(head, chars);
    forall k | |kept| <= k < room && k < |text| ensures text[k] in chars { assert head[k] == text[k]; }
  }

  /** The names in their order with the separator between each two, built from the end. */
  function Listed(names: seq<string>, separator: string): string
    requires names != []
  {
    if |names| == 1 then names[0] else Listed(names[..|names| - 1], separator) + separator + names[|names| - 1]
  }

  lemma {:induction false} JoinedIsListed(names: seq<string>, separator: string)
    requires names != []
    ensures Joined(names, separator) == Listed(names, separator)
    decreases |names|
  {
    if |names| == 2 {
      assert Joined(names[1..], separator) == names[1];
      assert names[..1] == [names[0]];
    } else if |names| > 2 {
      var inner := names[1..];
      JoinedIsListed(inner, separator);
      JoinedIsListed(names[..|names| - 1], separator);
      JoinedIsListed(inner[..|inner| - 1], separator);
      assert inner[..|inner| - 1] == names[..|names| - 1][1..];
    }
  }

  function Front(token: string): string { if token == "" then "" else token + "_" }

  /** All names if the limit on their number allows, else the first one and the mark for more. */
  function AllOrFirst(names: seq<string>, cfg: Config): string
    requires names != []
  {
    if cfg.maxNames >= |names| then Listed(names, cfg.separator) else names[0] + cfg.separator + cfg.overflow
  }

  ghost predicate CutAfter(front: string, part: string, room: nat, name: string) {
    exists kept :: name == front + kept && CutTo(part, room, " .-", kept)
  }

  /** A beginning of the token, at most four characters shorter than the limit. */
  ghost predicate Beginning(token: string, prefix: string, maxLength: int) {
    token != "" && token <= prefix && |token| <= if maxLength > 5 then maxLength - 4 else 1
  }

  /** A name cut to the limit keeps its token as long as three characters of the name part have room; a longer token is cut
    * as well, and only below three characters all of it is cut off in one. */
  lemma CutNameIs(prefix: string, part: string, maxLength: nat)
    ensures var name := CutName(prefix, part, maxLength);
      if prefix == "" || maxLength >= |prefix| + 4 then CutAfter(Front(prefix), part, maxLength - |Front(prefix)|, name)
      else if maxLength >= 3
      then exists token :: Beginning(token, prefix, maxLength) && CutAfter(token + "_", part, maxLength - |token| - 1, name)
      else name == (prefix + "_" + part)[..maxLength]
  {
    hide RStrip;
    var token := CutToken(prefix, maxLength);
    var room := Room(token, maxLength);
    if room > 0 {
      CutIs(part, room, " .-");
      var kept := RStrip(Head(part, room), " .-");
      assert CutName(prefix, part, maxLength) == Front(token) + kept;
    } else if prefix == "" {
      assert Head(part, 0) == "" + "" && CutTo(part, 0, " .-", "");
    }
  }

  /** What a fitted name is: token and names in full if they fit; else token and first name with the mark, if that fits;
    * else the name part cut to what the token leaves. */
  lemma NameIs(prefix: string, names: seq<string>, cfg: Config)
    requires names != [] && cfg.maxLength >= 0
    ensures var full, short := AllOrFirst(names, cfg), names[0] + cfg.separator + cfg.overflow;
      FitLength(prefix, names, cfg) ==
        if |Front(prefix) + full| <= cfg.maxLength then Front(prefix) + full
        else if |names| > 1 && |Front(prefix) + short| <= cfg.maxLength then Front(prefix) + short
        else CutName(prefix, if |names| > 1 then short else full, cfg.maxLength)
  {
    hide RStrip, Listed, Joined, CutName;
    JoinedIsListed(names, cfg.separator);
    forall part: string ensures Tagged(prefix, part) == Front(prefix) + part {}
  }

  lemma StrippedKeepsIff(part: string, room: nat)
    ensures |RStrip(Head(part, room), " .-")| >= 3 <==> exists k :: 2 <= k < room && k < |part| && part[k] !in " .-"
  {
    var head := Head(part, room);
    var r := RStrip(head, " .-");
    if |r| >= 3 { assert part[|r| - 1] == r[|r| - 1]; }
    if k :| 2 <= k < room && k < |part| && part[k] !in " .-" { assert head[k] == part[k]; }
  }

  /** How much of the name part a cut leaves: at least three characters exactly when, within the room left by the token, a
    * character from the third on is neither blank, dot nor dash. */
  lemma ThreeLettersKeptIff(prefix: string, names: seq<string>, cfg: Config)
    requires names != [] && cfg.maxLength >= 0 && MustCut(prefix, names, cfg)
    ensures var token, part := CutToken(prefix, cfg.maxLength), NamePart(names, cfg);
      |FitLength(prefix, names, cfg)| >= |Tagged(token, "")| + 3 <==>
      exists k :: 2 <= k < Room(token, cfg.maxLength) && k < |part| && part[k] !in " .-"
  {
    hide RStrip;
    var token, part := CutToken(prefix, cfg.maxLength), NamePart(names, cfg);
    var room := Room(token, cfg.maxLength);
    if room > 0 {
      StrippedKeepsIff(part, room);
      assert FitLength(prefix, names, cfg) == Tagged(token, RStrip(Head(part, room), " .-"));
    }
  }

  /** Blanks and dots at the cut are lost afterwards, so that a single letter may remain. */
  lemma OneLetterLeft()
    ensures var cfg := Config(2, " & ", "u.a.", 10, false);
      MustCut("WEABCDEFGH", ["A. Bauer"], cfg) && FitLength("WEABCDEFGH", ["A. Bauer"], cfg) == "WEABCD_A"
  {
    assert Joined(["A. Bauer"], " & ") == "A. Bauer";
    var token: string := "WEABCD";
    assert Head("WEABCDEFGH", 6) == token;
    assert RStrip(token, " .-_") == token;
    var head: string := "A. ";
    assert Head("A. Bauer", 3) == head;
    assert head[..2] == "A." && head[..2][..1] == "A";
    assert RStrip("A", " .-") == "A" && RStrip("A.", " .-") == "A" && RStrip(head, " .-") == "A";
    assert token + "_" + "A" == "WEABCD_A";
  }

  // ---------------------------------------------------------------- finding a free name

  datatype Input = Input(existing: set<string>, current: Option<string>, year: Option<nat>)

  function WithSuffix(base: string, suffix: string, cfg: Config): string {
    if |base| + |suffix| <= cfg.maxLength then base + suffix
    else RStrip(Head(base, cfg.maxLength - |suffix|), " .-_") + suffix
  }

  function Numbered(base: string, n: nat, cfg: Config): string {
    WithSuffix(base, "_" + Digits(n), cfg)
  }

  predicate Free(inp: Input, name: string) {
    inp.current == Some(name) || name !in inp.existing
  }

  predicate YearTried(inp: Input, cfg: Config) {
    cfg.yearFirst && inp.year.Some?
  }

  /** The first free one of: the name, the name with the year, the name with 2, 3 and so on. */
  ghost predicate Resolved(base: string, inp: Input, cfg: Config, name: string) {
    if Free(inp, base) then name == base
    else if YearTried(inp, cfg) && Free(inp, Numbered(base, inp.year.value, cfg)) then name == Numbered(base, inp.year.value, cfg)
    else exists n :: FirstFree(base, inp, cfg, n) && name == Numbered(base, n, cfg)
  }

  ghost predicate FirstFree(base: string, inp: Input, cfg: Config, n: nat) {
    n >= 2 && Free(inp, Numbered(base, n, cfg)) && forall k :: 2 <= k < n ==> !Free(inp, Numbered(base, k, cfg))
  }

  /** Cutting the name does not make two candidates alike, since the number stays behind the last underscore. */
  lemma NumberedDiffer(base: string, cfg: Config, m: nat, n: nat)
    requires m != n
    ensures Numbered(base, m, cfg) != Numbered(base, n, cfg)
  {
    TailIs(base, cfg, m);
    TailIs(base, cfg, n);
    DigitsValue(m);
    DigitsValue(n);
  }

  lemma TailIs(base: string, cfg: Config, n: nat)
    ensures AfterLast(Numbered(base, n, cfg)) == Digits(n)
  {
    var front := if |base| + |"_" + Digits(n)| <= cfg.maxLength then base else RStrip(Head(base, cfg.maxLength - |"_" + Digits(n)|), " .-_");
    assert Numbered(base, n, cfg) == front + "_" + Digits(n);
    AfterLastIs(front, Digits(n));
  }

  method ResolveCollision(base: string, inp: Input, cfg: Config) returns (name: string)
    ensures Resolved(base, inp, cfg, name)
  {
    hide Numbered;
    if inp.current == Some(base) || base !in inp.existing { return base; }
    if cfg.yearFirst && inp.year.Some? {
      var candidate := Numbered(base, inp.year.value, cfg);
      if inp.current == Some(candidate) || candidate !in inp.existing { return candidate; }
    }
    var counter: nat := 2;
    ghost var tried: set<string> := {};
    while true
      invariant counter >= 2 && |tried| == counter - 2 && tried <= inp.existing
      invariant forall k :: 2 <= k < counter ==> Numbered(base, k, cfg) in tried && !Free(inp, Numbered(base, k, cfg))
      invariant forall c :: c in tried ==> exists k :: 2 <= k < counter && c == Numbered(base, k, cfg)
      decreases inp.existing - tried
    {
      var candidate := Numbered(base, counter, cfg);
      if inp.current == Some(candidate) || candidate !in inp.existing {
        assert FirstFree(base, inp, cfg, counter);
        return candidate;
      }
      forall k | 2 <= k < counter ensures Numbered(base, k, cfg) != candidate { NumberedDiffer(base, cfg, k, counter); }
      tried := tried + {candidate};
      counter := counter + 1;
    }
  }

  /** The name found is not taken, except by the file itself. */
  lemma ResolvedIsFree(base: string, inp: Input, cfg: Config, name: string)
    requires Resolved(base, inp, cfg, name)
    ensures name in inp.existing ==> inp.current == Some(name)
  {
  }

  lemma ResolvedOnce(base: string, inp: Input, cfg: Config, a: string, b: string)
    requires Resolved(base, inp, cfg, a) && Resolved(base, inp, cfg, b)
    ensures a == b
  {
  }

  /** A suffix keeps the length exactly when it fits by itself. */
  lemma SuffixFitsIff(base: string, suffix: string, cfg: Config)
    ensures |WithSuffix(base, suffix, cfg)| <= cfg.maxLength <==> |suffix| <= cfg.maxLength
  {
  }

  /** A name that gets a suffix keeps as much of itself as the suffix leaves room for. */
  lemma SuffixedIs(base: string, suffix: string, cfg: Config)
    requires |suffix| <= cfg.maxLength
    ensures var name := WithSuffix(base, suffix, cfg);
      if |base| <= cfg.maxLength - |suffix| then name == base + suffix
      else exists kept :: name == kept + suffix && CutTo(base, cfg.maxLength - |suffix|, " .-_", kept)
  {
    hide RStrip;
    var room := cfg.maxLength - |suffix|;
    CutIs(base, room, " .-_");
    if |base| > room {
      var kept := RStrip(Head(base, room), " .-_");
      assert WithSuffix(base, suffix, cfg) == kept + suffix && CutTo(base, room, " .-_", kept);
    }
  }

  /** The name chosen, told from the taken names: as it stands if it is free or the file's own; else with the year, where
    * that is tried and free; else with the first number from 2 on that is free. */
  lemma ChosenIs(base: string, inp: Input, cfg: Config, name: string)
    requires Resolved(base, inp, cfg, name)
    ensures if base !in inp.existing || inp.current == Some(base) then name == base
      else if cfg.yearFirst && inp.year.Some? && Candidate(inp, WithSuffix(base, "_" + Digits(inp.year.value), cfg))
      then name == WithSuffix(base, "_" + Digits(inp.year.value), cfg)
      else exists n: nat :: n >= 2 && name == WithSuffix(base, "_" + Digits(n), cfg) && Candidate(inp, name)
             && forall k: nat :: 2 <= k < n ==> !Candidate(inp, WithSuffix(base, "_" + Digits(k), cfg))
  {
    hide WithSuffix, Digits;
    if !Free(inp, base) && !(YearTried(inp, cfg) && Free(inp, Numbered(base, inp.year.value, cfg))) {
      var n :| FirstFree(base, inp, cfg, n) && name == Numbered(base, n, cfg);
      forall k: nat | 2 <= k < n ensures !Candidate(inp, WithSuffix(base, "_" + Digits(k), cfg)) {
        assert !Free(inp, Numbered(base, k, cfg));
      }
    }
  }

  ghost predicate Candidate(inp: Input, name: string) {
    name !in inp.existing || inp.current == Some(name)
  }

  /** Whether the suffix the collision asks for fits, told from the taken names alone. */
  ghost predicate SuffixHasRoom(base: string, inp: Input, cfg: Config) {
    if Free(inp, base) then true
    else if YearTried(inp, cfg) && Free(inp, Numbered(base, inp.year.value, cfg)) then 1 + |Digits(inp.year.value)| <= cfg.maxLength
    else exists n :: FirstFree(base, inp, cfg, n) && 1 + |Digits(n)| <= cfg.maxLength
  }

  /** The name found keeps the length exactly when its suffix has room. */
  lemma ResolvedFitsIff(base: string, inp: Input, cfg: Config, name: string)
    requires Resolved(base, inp, cfg, name) && |base| <= cfg.maxLength
    ensures |name| <= cfg.maxLength <==> SuffixHasRoom(base, inp, cfg)
  {
    hide WithSuffix, Digits;
    forall n: nat ensures |Numbered(base, n, cfg)| <= cfg.maxLength <==> 1 + |Digits(n)| <= cfg.maxLength {
      SuffixFitsIff(base, "_" + Digits(n), cfg);
    }
  }

  /** Taken candidates are different names, so there are no more of them than taken names. */
  lemma {:induction false} CandidatesTaken(base: string, cfg: Config, n: nat)
    requires n >= 2
    ensures |set k | 2 <= k < n :: Numbered(base, k, cfg)| == n - 2
  {
    hide Numbered;
    var taken := set k | 2 <= k < n :: Numbered(base, k, cfg);
    if n == 2 {
      assert taken == {};
    } else {
      CandidatesTaken(base, cfg, n - 1);
      var fewer := set k | 2 <= k < n - 1 :: Numbered(base, k, cfg);
      assert taken == fewer + {Numbered(base, n - 1, cfg)};
      forall k | 2 <= k < n - 1 ensures Numbered(base, k, cfg) != Numbered(base, n - 1, cfg) { NumberedDiffer(base, cfg, k, n - 1); }
    }
  }

  lemma CounterBounded(base: string, inp: Input, cfg: Config, n: nat)
    requires FirstFree(base, inp, cfg, n)
    ensures n <= |inp.existing| + 2
  {
    hide Numbered;
    CandidatesTaken(base, cfg, n);
    var taken := set k | 2 <= k < n :: Numbered(base, k, cfg);
    assert taken <= inp.existing;
    assert inp.existing == taken + (inp.existing - taken);
  }

  lemma {:induction false} DigitsGrow(m: nat, n: nat)
    requires m <= n
    ensures |Digits(m)| <= |Digits(n)|
  {
    if m >= 10 { DigitsGrow(m / 10, n / 10); }
  }

  /** A limit that leaves room for the year and for the highest number the counter can reach is never exceeded. */
  lemma RoomSuffices(base: string, inp: Input, cfg: Config, name: string)
    requires Resolved(base, inp, cfg, name) && |base| <= cfg.maxLength
    requires YearTried(inp, cfg) ==> 1 + |Digits(inp.year.value)| <= cfg.maxLength
    requires 1 + |Digits(|inp.existing| + 2)| <= cfg.maxLength
    ensures |name| <= cfg.maxLength
  {
    hide Digits, Numbered;
    forall n | FirstFree(base, inp, cfg, n) ensures 1 + |Digits(n)| <= cfg.maxLength {
      CounterBounded(base, inp, cfg, n);
      DigitsGrow(n, |inp.existing| + 2);
    }
    ResolvedFitsIff(base, inp, cfg, name);
  }

  /** A limit of three characters and a taken name: the year alone is longer. */
  lemma LongerThanAllowed()
    ensures var inp, cfg := Input({"A"}, None, Some(2020)), Config(2, " & ", "u.a.", 3, true);
      Resolved("A", inp, cfg, "_2020") && !SuffixHasRoom("A", inp, cfg)
  {
    var inp, cfg := Input({"A"}, None, Some(2020)), Config(2, " & ", "u.a.", 3, true);
    assert Digits(2) == "2" && Digits(20) == "20" && Digits(202) == "202" && Digits(2020) == "2020";
    assert "_" + Digits(2020) == "_2020";
    assert Head("A", -2) == "" && RStrip("", " .-_") == "";
    assert Numbered("A", 2020, cfg) == "" + "_2020" == "_2020";
    assert Free(inp, "_2020") && !Free(inp, "A");
  }

  /** Asking again gives the same name: once a file bears its name, neither that name nor the disappearance of its
    * former one changes the answer, whatever other names came up. */
  lemma ResolvedAgain(base: string, inp: Input, cfg: Config, name: string, existing: set<string>)
    requires Resolved(base, inp, cfg, name)
    requires forall c :: c in inp.existing && inp.current != Some(c) ==> c in existing
    ensures Resolved(base, inp.(current := Some(name), existing := existing), cfg, name)
  {
    var again := inp.(current := Some(name), existing := existing);
    forall c | !Free(inp, c) ensures !Free(again, c) { ResolvedIsFree(base, inp, cfg, name); }
    if !Free(inp, base) && !(YearTried(inp, cfg) && Free(inp, Numbered(base, inp.year.value, cfg))) {
      var n :| FirstFree(base, inp, cfg, n) && name == Numbered(base, n, cfg);
      assert FirstFree(base, again, cfg, n);
    }
  }

  // ---------------------------------------------------------------- the whole name

  /** Every file kind but "unassigned": a name that fits, is free, and stays. */
  method BuildName(prefix: string, names: seq<string>, inp: Input, cfg: Config) returns (name: string)
    requires names != []
    ensures Resolved(FitLength(prefix, names, cfg), inp, cfg, name)
    ensures name in inp.existing ==> inp.current == Some(name)
    ensures cfg.maxLength >= 0 ==> (|name| <= cfg.maxLength <==> SuffixHasRoom(FitLength(prefix, names, cfg), inp, cfg))
  {
    var base := FitLength(prefix, names, cfg);
    name := ResolveCollision(base, inp, cfg);
    ResolvedIsFree(base, inp, cfg, name);
    if cfg.maxLength >= 0 {
      FitLengthFits(prefix, names, cfg);
      ResolvedFitsIff(base, inp, cfg, name);
    }
  }
}
