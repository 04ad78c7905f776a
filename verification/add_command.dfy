/** The client's `add <port> <host>:<port>` console command. The pattern
    `^add ([0-9]+) ([^:]+):([0-9]+)$` is read here as the deterministic scan it amounts to: each
    digit group is a maximal run of ASCII digits, the host runs up to the first ':', and `$`
    (without MULTILINE) accepts the end of the input or one final line terminator before it. */
module AddCommand {
  import opened Base

  /** The three groups of a match: source port, destination host, destination port. */
  datatype AddCommand = AddCommand(source: string, host: string, target: string)

  /** `Integer.MAX_VALUE`. */
  const INT_MAX: int := 0x7fff_ffff

  predicate IsDigit(c: char) { '0' <= c <= '9' }

  predicate AllDigits(s: string)
  {
    forall i :: 0 <= i < |s| ==> IsDigit(s[i])
  }

  /** The line terminators Java's `$` may skip at the very end of the input: nothing, one of
      "\n", "\r", U+0085, U+2028, U+2029, or the pair "\r\n". */
  predicate IsLineEnd(t: string)
  {
    || |t| == 0
    || (|t| == 1 && (t[0] == '\n' || t[0] == '\r' || t[0] == '\U{0085}' || t[0] == '\U{2028}' || t[0] == '\U{2029}'))
    || (|t| == 2 && t[0] == '\r' && t[1] == '\n')
  }

  /** The groups of a match have the shapes the pattern demands. */
  predicate WellFormed(c: AddCommand)
  {
    && c.source != [] && AllDigits(c.source)
    && c.host != [] && ':' !in c.host
    && c.target != [] && AllDigits(c.target)
  }

  /** The text the pattern matches for the given groups, before any final line terminator. */
  function Text(c: AddCommand): string
  {
    "add " + c.source + " " + c.host + ":" + c.target
  }

  /** `cmd` matches the pattern with groups `c`. */
  predicate Matches(cmd: string, c: AddCommand)
  {
    WellFormed(c) && |Text(c)| <= |cmd| && cmd[..|Text(c)|] == Text(c) && IsLineEnd(cmd[|Text(c)|..])
  }

  /** The length of the run of ASCII digits at the front of `s`. */
  function DigitRun(s: string): (n: nat)
    ensures n <= |s| && AllDigits(s[..n]) && (n < |s| ==> !IsDigit(s[n]))
  {
    if s == [] || !IsDigit(s[0]) then 0
    else
      var n := 1 + DigitRun(s[1..]);
      assert forall i :: 1 <= i < n ==> s[..n][i] == s[1..][..n - 1][i - 1];
      n
  }

  /** The index of the first ':' in `s`, or `|s|` when there is none. */
  function ColonAt(s: string): (k: nat)
    ensures k <= |s| && (k < |s| ==> s[k] == ':') && ':' !in s[..k]
  {
    if s == [] then 0
    else if s[0] == ':' then 0
    else
      var k := 1 + ColonAt(s[1..]);
      assert s[..k] == [s[0]] + s[1..][..k - 1];
      k
  }

  /** The last group and the end of the input: a digit run, then at most a final line terminator. */
  function ParseTarget(after: string): (r: Option<string>)
    ensures r.Some? ==> r.value != [] && AllDigits(r.value)
  {
    var m := DigitRun(after);
    if m == 0 || !IsLineEnd(after[m..]) then None else Some(after[..m])
  }

  /** The host group up to the first ':', then the last group. */
  function ParseHostPort(tail: string): (r: Option<(string, string)>)
    ensures r.Some? ==> r.value.0 != [] && ':' !in r.value.0 && r.value.1 != [] && AllDigits(r.value.1)
  {
    var k := ColonAt(tail);
    if k == 0 || k == |tail| then None
    else
      match ParseTarget(tail[k + 1..])
      case None => None
      case Some(g) => Some((tail[..k], g))
  }

  /** The first group, a blank, then the rest of the pattern. */
  function ParseGroups(rest: string): (r: Option<AddCommand>)
    ensures r.Some? ==> WellFormed(r.value)
  {
    var n := DigitRun(rest);
    if n == 0 || n == |rest| || rest[n] != ' ' then None
    else
      match ParseHostPort(rest[n + 1..])
      case None => None
      case Some(hg) => Some(AddCommand(rest[..n], hg.0, hg.1))
  }

  /** `matcher.find()` and its three groups. */
  function ParseAdd(cmd: string): (r: Option<AddCommand>)
    ensures r.Some? ==> WellFormed(r.value)
  {
    if |cmd| < 4 || cmd[..4] != "add " then None else ParseGroups(cmd[4..])
  }

  /** A maximal digit run followed by a non-digit is found exactly. */
  lemma {:induction false} DigitRunOf(a: string, b: string)
    requires AllDigits(a) && (b == [] || !IsDigit(b[0]))
    ensures DigitRun(a + b) == |a|
    decreases |a|
  {
    if a != [] {
      assert (a + b)[1..] == a[1..] + b;
      DigitRunOf(a[1..], b);
    }
  }

  /** A host without ':' followed by ':' ends exactly at that colon. */
  lemma {:induction false} ColonAtOf(h: string, b: string)
    requires ':' !in h
    ensures ColonAt(h + ":" + b) == |h|
    decreases |h|
  {
    if h != [] {
      assert (h + ":" + b)[1..] == h[1..] + ":" + b;
      assert h[0] in h;
      ColonAtOf(h[1..], b);
    }
  }

  lemma TargetIff(after: string, g: string)
    ensures ParseTarget(after) == Some(g) <==>
            g != [] && AllDigits(g) && |g| <= |after| && after[..|g|] == g && IsLineEnd(after[|g|..])
  {
    if g != [] && AllDigits(g) && |g| <= |after| && after[..|g|] == g && IsLineEnd(after[|g|..]) {
      var t := after[|g|..];
      assert after == g + t;
      DigitRunOf(g, t);
    }
  }

  lemma HostPortIff(tail: string, h: string, g: string)
    ensures ParseHostPort(tail) == Some((h, g)) <==>
            h != [] && ':' !in h && |h| < |tail| && tail[..|h|] == h && tail[|h|] == ':'
            && ParseTarget(tail[|h| + 1..]) == Some(g)
  {
    if h != [] && ':' !in h && |h| < |tail| && tail[..|h|] == h && tail[|h|] == ':' {
      var b := tail[|h| + 1..];
      assert tail == h + ":" + b;
      ColonAtOf(h, b);
    }
  }

  lemma GroupsIff(rest: string, c: AddCommand)
    ensures ParseGroups(rest) == Some(c) <==>
            c.source != [] && AllDigits(c.source) && |c.source| < |rest| && rest[..|c.source|] == c.source
            && rest[|c.source|] == ' ' && ParseHostPort(rest[|c.source| + 1..]) == Some((c.host, c.target))
  {
    var s := c.source;
    if s != [] && AllDigits(s) && |s| < |rest| && rest[..|s|] == s && rest[|s|] == ' ' {
      var b := rest[|s|..];
      assert rest == s + b;
      DigitRunOf(s, b);
    }
  }

  lemma TargetOfConcat(g: string, t: string)
    requires g != [] && AllDigits(g) && IsLineEnd(t)
    ensures ParseTarget(g + t) == Some(g)
  {
    assert (g + t)[..|g|] == g && (g + t)[|g|..] == t;
    TargetIff(g + t, g);
  }

  lemma HostPortOfConcat(h: string, g: string, after: string)
    requires h != [] && ':' !in h && ParseTarget(after) == Some(g)
    ensures ParseHostPort(h + (":" + after)) == Some((h, g))
  {
    var tail := h + (":" + after);
    assert tail[..|h|] == h && tail[|h|] == ':' && tail[|h| + 1..] == after;
    HostPortIff(tail, h, g);
  }

  lemma GroupsOfConcat(c: AddCommand, tail: string)
    requires c.source != [] && AllDigits(c.source) && ParseHostPort(tail) == Some((c.host, c.target))
    ensures ParseGroups(c.source + (" " + tail)) == Some(c)
  {
    var rest := c.source + (" " + tail);
    assert rest[..|c.source|] == c.source && rest[|c.source|] == ' ' && rest[|c.source| + 1..] == tail;
    GroupsIff(rest, c);
  }

  lemma AddOfConcat(rest: string)
    ensures ParseAdd("add " + rest) == ParseGroups(rest)
  {
    assert ("add " + rest)[..4] == "add " && ("add " + rest)[4..] == rest;
  }

  lemma TextAssoc(c: AddCommand, t: string)
    ensures Text(c) + t == "add " + (c.source + (" " + (c.host + (":" + (c.target + t)))))
  {
  }

  /** The pattern's text for well-formed groups, with any final line terminator, parses back
      into those groups. */
  lemma ParseOfText(c: AddCommand, t: string)
    requires WellFormed(c) && IsLineEnd(t)
    ensures ParseAdd(Text(c) + t) == Some(c)
  {
    var after := c.target + t;
    TargetOfConcat(c.target, t);
    var tail := c.host + (":" + after);
    HostPortOfConcat(c.host, c.target, after);
    var rest := c.source + (" " + tail);
    GroupsOfConcat(c, tail);
    AddOfConcat(rest);
    TextAssoc(c, t);
  }

  /** A command that matches the pattern is parsed into exactly the groups it matches with. */
  lemma MatchParses(cmd: string, c: AddCommand)
    requires Matches(cmd, c)
    ensures ParseAdd(cmd) == Some(c)
  {
    var t := cmd[|Text(c)|..];
    assert cmd == Text(c) + t;
    ParseOfText(c, t);
  }

  lemma TargetSplit(after: string, g: string)
    requires ParseTarget(after) == Some(g)
    ensures |g| <= |after| && after == g + after[|g|..] && IsLineEnd(after[|g|..])
  {
    TargetIff(after, g);
  }

  lemma HostPortSplit(tail: string, h: string, g: string)
    requires ParseHostPort(tail) == Some((h, g))
    ensures |h| < |tail| && tail == h + (":" + tail[|h| + 1..]) && ParseTarget(tail[|h| + 1..]) == Some(g)
  {
    HostPortIff(tail, h, g);
  }

  lemma GroupsSplit(rest: string, c: AddCommand)
    requires ParseGroups(rest) == Some(c)
    ensures |c.source| < |rest| && rest == c.source + (" " + rest[|c.source| + 1..])
    ensures ParseHostPort(rest[|c.source| + 1..]) == Some((c.host, c.target))
  {
    var n := DigitRun(rest);
    assert rest[..n] == c.source;
    assert rest == rest[..n] + (" " + rest[n + 1..]);
  }

  lemma AddSplit(cmd: string)
    requires ParseAdd(cmd).Some?
    ensures |cmd| >= 4 && cmd == "add " + cmd[4..] && ParseGroups(cmd[4..]) == ParseAdd(cmd)
  {
  }

  /** Whatever the parser returns are groups the command matches with. */
  lemma ParseMatches(cmd: string, c: AddCommand)
    requires ParseAdd(cmd) == Some(c)
    ensures Matches(cmd, c)
  {
    AddSplit(cmd);
    var rest := cmd[4..];
    GroupsSplit(rest, c);
    var tail := rest[|c.source| + 1..];
    HostPortSplit(tail, c.host, c.target);
    var after := tail[|c.host| + 1..];
    TargetSplit(after, c.target);
    var t := after[|c.target|..];
    TextAssoc(c, t);
    assert cmd == Text(c) + t;
    assert cmd[..|Text(c)|] == Text(c) && cmd[|Text(c)|..] == t;
  }

  /** The parser finds groups exactly when the command matches the pattern with those groups, so
      a matching command has only one way to match. */
  lemma ParseAddIffMatches(cmd: string, c: AddCommand)
    ensures ParseAdd(cmd) == Some(c) <==> Matches(cmd, c)
  {
    if Matches(cmd, c) {
      MatchParses(cmd, c);
    }
    if ParseAdd(cmd) == Some(c) {
      ParseMatches(cmd, c);
    }
  }

  /** The value of a string of decimal digits. */
  function DecimalValue(s: string): nat
    requires AllDigits(s)
  {
    if s == [] then 0 else DecimalValue(s[..|s| - 1]) * 10 + (s[|s| - 1] as int - '0' as int)
  }

  /** `Integer.parseInt` of a digit group: its value, or NumberFormatException (None) above
      `Integer.MAX_VALUE`. */
  function ParseInt(s: string): (r: Option<int>)
    requires s != [] && AllDigits(s)
    ensures r.Some? ==> 0 <= r.value <= INT_MAX
  {
    var v := DecimalValue(s);
    if v <= INT_MAX then Some(v) else None
  }

  /** The canonical decimal form of a natural number. */
  function ToDecimal(n: nat): (s: string)
    ensures s != [] && AllDigits(s)
  {
    var d := ['0' + (n % 10) as char];
    if n < 10 then d else ToDecimal(n / 10) + d
  }

  lemma {:induction false} DecimalValueOf(n: nat)
    ensures DecimalValue(ToDecimal(n)) == n
  {
    var s := ToDecimal(n);
    if n >= 10 {
      DecimalValueOf(n / 10);
      assert s[..|s| - 1] == ToDecimal(n / 10);
    }
  }

  /** Every Java int from 0 up parses back from its decimal form; one past `Integer.MAX_VALUE`
      does not. */
  lemma ParseIntOfDecimal(n: nat)
    ensures n <= INT_MAX ==> ParseInt(ToDecimal(n)) == Some(n)
    ensures n > INT_MAX ==> ParseInt(ToDecimal(n)) == None
  {
    DecimalValueOf(n);
  }

  /** The command a user types for a forward is read back as its two ports and host. */
  lemma ParseAddOfCommand(p: nat, host: string, q: nat)
    requires host != [] && ':' !in host
    ensures var c := AddCommand(ToDecimal(p), host, ToDecimal(q));
      && ParseAdd(Text(c)) == Some(c)
      && ParseAdd(Text(c) + "\n") == Some(c)
  {
    var c := AddCommand(ToDecimal(p), host, ToDecimal(q));
    assert Text(c)[..|Text(c)|] == Text(c) && Text(c)[|Text(c)|..] == "";
    ParseAddIffMatches(Text(c), c);
    assert (Text(c) + "\n")[..|Text(c)|] == Text(c) && (Text(c) + "\n")[|Text(c)|..] == "\n";
    ParseAddIffMatches(Text(c) + "\n", c);
  }
}
