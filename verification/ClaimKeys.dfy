/** Claim keys: how a task's key is derived, the text it is stored under and the target
    that text addresses. */
module ClaimKeys {
  import opened Wrappers
  import opened Text

  /** What a claim is held on.  An unused component is empty. */
  datatype ClaimTarget = ClaimTarget(taskId: string, owner: string, repo: string, number: string)

  const TASK := "claims/task/"
  const REPO := "claims/repo/"
  const PR := "claims/pr/"

  // ---- text to target and back ----

  /** The target a key addresses, if it is a claim key. */
  function TargetFromKey(key: string): Option<ClaimTarget> {
    if HasPrefix(key, TASK) then
      var id := key[|TASK|..];
      if id == "" then None else Some(ClaimTarget(id, "", "", ""))
    else if HasPrefix(key, REPO) then
      var parts := Split(key[|REPO|..], '/');
      if |parts| != 2 || parts[0] == "" || parts[1] == "" then None
      else Some(ClaimTarget("", parts[0], parts[1], ""))
    else if HasPrefix(key, PR) then
      var parts := Split(key[|PR|..], '/');
      if |parts| != 3 || parts[0] == "" || parts[1] == "" || parts[2] == "" then None
      else Some(ClaimTarget("", parts[0], parts[1], parts[2]))
    else None
  }

  predicate IsPull(t: ClaimTarget) { t.number != "" }

  predicate IsAmbiguous(t: ClaimTarget) { t.taskId != "" && (t.owner != "" || t.repo != "" || IsPull(t)) }

  predicate ValidPullNumber(number: string) { number != "" && AllDigits(number) }

  /** The key a target is stored under, if it is addressable. */
  function KeyFor(t: ClaimTarget): Option<string> {
    if IsAmbiguous(t) then None
    else if t.taskId != "" then Some(TASK + t.taskId)
    else if t.owner == "" || t.repo == "" || (IsPull(t) && !ValidPullNumber(t.number)) then None
    else if IsPull(t) then Some(PR + Join([t.owner, t.repo, t.number], '/'))
    else Some(REPO + Join([t.owner, t.repo], '/'))
  }

  lemma Prefixes(s: string)
    ensures HasPrefix(TASK + s, TASK) && (TASK + s)[|TASK|..] == s
    ensures HasPrefix(REPO + s, REPO) && !HasPrefix(REPO + s, TASK) && (REPO + s)[|REPO|..] == s
    ensures HasPrefix(PR + s, PR) && !HasPrefix(PR + s, TASK) && !HasPrefix(PR + s, REPO) && (PR + s)[|PR|..] == s
  {
    assert (REPO + s)[7] == 'r' && (PR + s)[7] == 'p' && TASK[7] == 't' && REPO[7] == 'r';
  }

  lemma TaskRoundTrip(id: string)
    requires id != ""
    ensures TargetFromKey(TASK + id) == Some(ClaimTarget(id, "", "", ""))
  {
    hide HasPrefix, Split;
    Prefixes(id);
  }

  lemma RepoRoundTrip(owner: string, repo: string)
    requires owner != "" && repo != ""
    ensures TargetFromKey(REPO + Join([owner, repo], '/')) == Some(ClaimTarget("", owner, repo, ""))
       <==> '/' !in owner && '/' !in repo
  {
    hide HasPrefix, Split, Join;
    Prefixes(Join([owner, repo], '/'));
    if '/' !in owner && '/' !in repo { SplitJoin([owner, repo], '/'); }
  }

  lemma PullRoundTrip(owner: string, repo: string, number: string)
    requires owner != "" && repo != "" && ValidPullNumber(number)
    ensures TargetFromKey(PR + Join([owner, repo, number], '/')) == Some(ClaimTarget("", owner, repo, number))
       <==> '/' !in owner && '/' !in repo
  {
    hide HasPrefix, Split, Join;
    Prefixes(Join([owner, repo, number], '/'));
    if '/' !in owner && '/' !in repo { SplitJoin([owner, repo, number], '/'); }
  }

  /** A target survives the way to its key and back exactly when no component of a
      repository or pull request contains the separator. */
  lemma KeyRoundTrip(t: ClaimTarget)
    requires KeyFor(t).Some?
    ensures TargetFromKey(KeyFor(t).value) == Some(t) <==> '/' !in t.owner && '/' !in t.repo
  {
    hide TargetFromKey, Join;
    if t.taskId != "" {
      TaskRoundTrip(t.taskId);
    } else if IsPull(t) {
      PullRoundTrip(t.owner, t.repo, t.number);
    } else {
      RepoRoundTrip(t.owner, t.repo);
    }
  }

  /** A key survives the way to its target and back exactly when it is not a pull request
      with something other than a number. */
  lemma TargetRoundTrip(key: string)
    requires TargetFromKey(key).Some?
    ensures var t := TargetFromKey(key).value; KeyFor(t) == Some(key) <==> (IsPull(t) ==> AllDigits(t.number))
  {
    var t := TargetFromKey(key).value;
    if HasPrefix(key, TASK) {
      assert key == TASK + key[|TASK|..];
    } else if HasPrefix(key, REPO) {
      JoinSplit(key[|REPO|..], '/');
      assert key == REPO + key[|REPO|..] && Split(key[|REPO|..], '/') == [t.owner, t.repo];
    } else {
      JoinSplit(key[|PR|..], '/');
      assert key == PR + key[|PR|..] && Split(key[|PR|..], '/') == [t.owner, t.repo, t.number];
    }
  }

  lemma JoinTwo(owner: string, repo: string)
    ensures REPO + Join([owner, repo], '/') == REPO + owner + "/" + repo
  {
    assert Join([owner, repo], '/') == owner + "/" + repo;
  }

  /** The text of a target's key. */
  predicate KeyText(t: ClaimTarget, key: string) {
    if t.taskId != "" then t.owner == "" && t.repo == "" && t.number == "" && key == "claims/task/" + t.taskId
    else
      && t.owner != "" && t.repo != ""
      && key == if t.number == "" then "claims/repo/" + t.owner + "/" + t.repo
                else "claims/pr/" + t.owner + "/" + t.repo + "/" + t.number
  }

  /** A target has a key exactly when it is one task, one repository or one pull request with
      a number, and the key is its text. */
  lemma KeyExactly(t: ClaimTarget, key: string)
    ensures KeyFor(t) == Some(key) <==> KeyText(t, key) && AllDigits(t.number)
  {
    if t.owner != "" && t.repo != "" {
      JoinTwo(t.owner, t.repo);
      JoinThree(t.owner, t.repo, t.number, '/');
      assert PR + (t.owner + "/" + t.repo + "/" + t.number) == PR + t.owner + "/" + t.repo + "/" + t.number;
    }
  }

  lemma PartsAreRead(owner: string, repo: string, number: string)
    requires owner != "" && repo != "" && number != "" && '/' !in owner && '/' !in repo && '/' !in number
    ensures TargetFromKey(PR + owner + "/" + repo + "/" + number) == Some(ClaimTarget("", owner, repo, number))
  {
    hide HasPrefix, Split, Join;
    var text := Join([owner, repo, number], '/');
    Prefixes(text);
    SplitJoin([owner, repo, number], '/');
    JoinThree(owner, repo, number, '/');
    assert PR + text == PR + owner + "/" + repo + "/" + number;
  }

  lemma RepoIsRead(key: string, owner: string, repo: string)
    requires HasPrefix(key, REPO) && Split(key[|REPO|..], '/') == [owner, repo]
    ensures key == REPO + owner + "/" + repo && '/' !in owner && '/' !in repo
  {
    var rest := key[|REPO|..];
    assert key == REPO + rest && owner == Split(rest, '/')[0] && repo == Split(rest, '/')[1];
    JoinSplit(rest, '/');
    JoinTwo(owner, repo);
  }

  lemma PullIsRead(key: string, owner: string, repo: string, number: string)
    requires HasPrefix(key, PR) && Split(key[|PR|..], '/') == [owner, repo, number]
    ensures key == PR + owner + "/" + repo + "/" + number && '/' !in owner && '/' !in repo && '/' !in number
  {
    var rest := key[|PR|..];
    assert key == PR + rest;
    assert owner == Split(rest, '/')[0] && repo == Split(rest, '/')[1] && number == Split(rest, '/')[2];
    JoinSplit(rest, '/');
    JoinThree(owner, repo, number, '/');
    assert PR + (owner + "/" + repo + "/" + number) == PR + owner + "/" + repo + "/" + number;
  }

  lemma TargetIsRead(key: string)
    requires TargetFromKey(key).Some?
    ensures var t := TargetFromKey(key).value;
            KeyText(t, key) && (t.taskId == "" ==> '/' !in t.owner && '/' !in t.repo && '/' !in t.number)
  {
    hide Split;
    var t := TargetFromKey(key).value;
    if HasPrefix(key, TASK) {
      assert key == TASK + key[|TASK|..];
    } else if HasPrefix(key, REPO) {
      RepoIsRead(key, t.owner, t.repo);
    } else {
      PullIsRead(key, t.owner, t.repo, t.number);
    }
  }

  /** A key is read as a target exactly when it is that target's text and no component of a
      repository or pull request contains the separator. */
  lemma TargetExactly(key: string, t: ClaimTarget)
    ensures TargetFromKey(key) == Some(t) <==>
            KeyText(t, key) && (t.taskId == "" ==> '/' !in t.owner && '/' !in t.repo && '/' !in t.number)
  {
    hide TargetFromKey;
    if TargetFromKey(key).Some? { TargetIsRead(key); }
    if KeyText(t, key) && (t.taskId == "" ==> '/' !in t.owner && '/' !in t.repo && '/' !in t.number) {
      if t.taskId != "" {
        TaskRoundTrip(t.taskId);
      } else if t.number == "" {
        JoinTwo(t.owner, t.repo);
        RepoRoundTrip(t.owner, t.repo);
      } else {
        PartsAreRead(t.owner, t.repo, t.number);
      }
    }
  }

  // ---- derivation ----

  /** How characters outside ASCII fold: the program uses the Unicode tables. */
  datatype Unicode = Unicode(lower: char -> char, same: (char, char) -> bool)

  predicate IsAscii(c: char) { c < 128 as char }

  function AsciiLower(c: char): char { if 'A' <= c <= 'Z' then c + 32 as char else c }

  function ToLower(u: Unicode, s: string): (r: string)
    ensures |r| == |s|
  {
    seq(|s|, i requires 0 <= i < |s| => if IsAscii(s[i]) then AsciiLower(s[i]) else u.lower(s[i]))
  }

  predicate EqualFold(u: Unicode, s: string, t: string) {
    && |s| == |t|
    && forall i :: 0 <= i < |s| ==>
      s[i] == t[i] || (if IsAscii(s[i]) && IsAscii(t[i]) then AsciiLower(s[i]) == AsciiLower(t[i]) else u.same(s[i], t[i]))
  }

  predicate IsSpace(c: char) {
    || '\t' <= c <= '\r' || c == ' ' || c == '\U{85}' || c == '\U{A0}' || c == '\U{1680}'
    || '\U{2000}' <= c <= '\U{200a}' || c == '\U{2028}' || c == '\U{2029}' || c == '\U{202f}' || c == '\U{205f}'
    || c == '\U{3000}'
  }

  function TrimSpace(s: string): string
    decreases |s|
  {
    if s == "" then s
    else if IsSpace(s[0]) then TrimSpace(s[1..])
    else if IsSpace(s[|s| - 1]) then TrimSpace(s[..|s| - 1])
    else s
  }

  /** The characters Unicode calls white space, by code point. */
  predicate White(c: char) {
    c as int in {9, 10, 11, 12, 13, 32, 0x85, 0xA0, 0x1680, 0x2000, 0x2001, 0x2002, 0x2003, 0x2004, 0x2005, 0x2006, 0x2007,
                 0x2008, 0x2009, 0x200a, 0x2028, 0x2029, 0x202f, 0x205f, 0x3000}
  }

  lemma SpaceIsWhite(c: char)
    ensures IsSpace(c) <==> White(c)
  {}

  predicate AllWhite(s: string) { forall i :: 0 <= i < |s| ==> White(s[i]) }

  /** t is s without the white space around it. */
  ghost predicate IsTrimmed(s: string, t: string) {
    && (t == "" || (!White(t[0]) && !White(t[|t| - 1])))
    && exists a: string, b: string :: s == a + t + b && AllWhite(a) && AllWhite(b)
  }

  lemma WhiteAround(c: char, s: string, t: string)
    requires IsTrimmed(s, t) && White(c)
    ensures IsTrimmed([c] + s, t) && IsTrimmed(s + [c], t)
  {
    hide White;
    var a: string, b: string :| s == a + t + b && AllWhite(a) && AllWhite(b);
    assert [c] + s == ([c] + a) + t + b && AllWhite([c] + a);
    assert s + [c] == a + t + (b + [c]) && AllWhite(b + [c]);
  }

  lemma {:induction false} TrimSpaceTrims(s: string)
    ensures IsTrimmed(s, TrimSpace(s))
    decreases |s|
  {
    hide White, IsSpace, IsTrimmed;
    if s == "" {
      AlreadyTrimmed(s);
    } else {
      var n := |s| - 1;
      SpaceIsWhite(s[0]);
      SpaceIsWhite(s[n]);
      if IsSpace(s[0]) {
        TrimSpaceTrims(s[1..]);
        WhiteAround(s[0], s[1..], TrimSpace(s));
        assert s == [s[0]] + s[1..];
      } else if IsSpace(s[n]) {
        TrimSpaceTrims(s[..n]);
        WhiteAround(s[n], s[..n], TrimSpace(s));
        assert s == s[..n] + [s[n]];
      } else {
        AlreadyTrimmed(s);
      }
    }
  }

  lemma AlreadyTrimmed(s: string)
    requires s == "" || (!White(s[0]) && !White(s[|s| - 1]))
    ensures IsTrimmed(s, s)
  {
    var none: string := "";
    assert s == none + s + none && AllWhite(none);
  }

  /** The first character that is not white is the same however the text is cut. */
  lemma SolidStart(a: string, x: string, c: string, y: string)
    requires a + x == c + y && AllWhite(a) && AllWhite(c) && x != "" && y != "" && !White(x[0]) && !White(y[0])
    ensures x == y
  {
    hide White;
    var s := a + x;
    assert s[|a|] == x[0] && s[|c|] == y[0];
    assert forall i :: 0 <= i < |a| ==> White(s[i]);
    assert forall i :: 0 <= i < |c| ==> White(s[i]);
    assert x == s[|a|..] && y == s[|c|..];
  }

  lemma SolidEnd(x: string, b: string, y: string, d: string)
    requires x + b == y + d && AllWhite(b) && AllWhite(d) && x != "" && y != "" && !White(x[|x| - 1]) && !White(y[|y| - 1])
    ensures x == y
  {
    hide White;
    var s := x + b;
    assert s[|x| - 1] == x[|x| - 1] && s[|y| - 1] == y[|y| - 1];
    assert forall i :: |x| <= i < |s| ==> s[i] == b[i - |x|];
    assert forall i :: |y| <= i < |s| ==> s[i] == d[i - |y|];
    assert x == s[..|x|] && y == s[..|y|];
  }

  lemma OnlyWhite(s: string, c: string, r: string, d: string)
    requires AllWhite(s) && s == c + r + d && (r == "" || !White(r[0]))
    ensures r == ""
  {
    hide White;
    assert r == s[|c|..|c| + |r|];
  }

  /** Around a text without outer white space there is one way to add some. */
  lemma TrimmedOnce(a: string, t: string, b: string, c: string, r: string, d: string)
    requires a + t + b == c + r + d && AllWhite(a) && AllWhite(b) && AllWhite(c) && AllWhite(d)
    requires t == "" || (!White(t[0]) && !White(t[|t| - 1]))
    requires r == "" || (!White(r[0]) && !White(r[|r| - 1]))
    ensures t == r
  {
    hide White;
    if t == "" {
      OnlyWhite(a + t + b, c, r, d);
    } else if r == "" {
      OnlyWhite(c + r + d, a, t, b);
    } else {
      assert a + (t + b) == a + t + b == c + (r + d);
      SolidStart(a, t + b, c, r + d);
      SolidEnd(t, b, r, d);
    }
  }

  /** Trimming takes away the white space at both ends and nothing else. */
  lemma TrimSpaceExactly(s: string, t: string)
    ensures TrimSpace(s) == t <==> IsTrimmed(s, t)
  {
    hide White;
    TrimSpaceTrims(s);
    if IsTrimmed(s, t) {
      var r := TrimSpace(s);
      var a: string, b: string :| s == a + t + b && AllWhite(a) && AllWhite(b);
      var c: string, d: string :| s == c + r + d && AllWhite(c) && AllWhite(d);
      TrimmedOnce(a, t, b, c, r, d);
    }
  }

  predicate IsSafe(c: char) { 'A' <= c <= 'Z' || 'a' <= c <= 'z' || '0' <= c <= '9' || c == '.' || c == '_' || c == '-' }

  predicate ValidComponent(s: string) {
    && s != "" && '/' !in s && (forall i :: 0 <= i < |s| - 1 ==> s[i] != '.' || s[i + 1] != '.')
    && s[0] != '.' && !HasSuffix(s, ".lock") && forall i :: 0 <= i < |s| ==> IsSafe(s[i])
  }

  predicate SafeText(s: string) {
    forall c :: c in s ==> 'a' <= c <= 'z' || 'A' <= c <= 'Z' || '0' <= c <= '9' || c == '.' || c == '_' || c == '-'
  }

  ghost predicate HasDots(s: string) { exists a: string, b: string :: s == a + ".." + b }

  lemma HasDotsExactly(s: string)
    ensures HasDots(s) <==> exists i :: 0 <= i < |s| - 1 && s[i] == '.' && s[i + 1] == '.'
  {
    if i :| 0 <= i < |s| - 1 && s[i] == '.' && s[i + 1] == '.' { assert s == s[..i] + ".." + s[i + 2..]; }
    if HasDots(s) {
      var a: string, b: string :| s == a + ".." + b;
      assert s[|a|] == '.' && s[|a| + 1] == '.';
    }
  }

  lemma SafeTextExactly(s: string)
    ensures SafeText(s) <==> forall i :: 0 <= i < |s| ==> IsSafe(s[i])
  {
    forall i | 0 <= i < |s| && SafeText(s) ensures IsSafe(s[i]) { assert s[i] in s; }
  }

  /** The names a key may contain. */
  lemma ValidExactly(s: string)
    ensures ValidComponent(s) <==>
            s != "" && SafeText(s) && !HasDots(s) && s[0] != '.' && !exists name: string :: s == name + ".lock"
  {
    if HasSuffix(s, ".lock") { assert s == s[..|s| - 5] + ".lock"; }
    if name: string :| s == name + ".lock" { assert s[|s| - 5..] == ".lock"; }
    HasDotsExactly(s);
    SafeTextExactly(s);
    hide HasDots;
    if SafeText(s) { assert '/' !in s; }
  }

  const HOST := "https://github.com/"

  /** The number in a line that is exactly the URL of a pull request of owner/repo. */
  function NumberFromLine(u: Unicode, owner: string, repo: string, line: string): (r: Option<nat>)
    ensures r.Some? ==> 1 <= r.value
  {
    if !HasPrefix(line, HOST) then None
    else
      var parts := Split(line[|HOST|..], '/');
      if |parts| != 4 || parts[2] != "pull" || !EqualFold(u, parts[0], owner) || !EqualFold(u, parts[1], repo) then None
      else
        var raw := parts[3];
        if |raw| < 1 || |raw| > 10 || !AllDigits(raw) || Value(raw) < 1 then None else Some(Value(raw))
  }

  /** The line is exactly the URL of a pull request of owner/repo with that number. */
  ghost predicate NamesPull(u: Unicode, owner: string, repo: string, line: string, n: nat) {
    exists a: string, b: string, raw: string ::
      && line == "https://github.com/" + Join([a, b, "pull", raw], '/') && '/' !in a && '/' !in b
      && EqualFold(u, a, owner) && EqualFold(u, b, repo)
      && 1 <= |raw| <= 10 && AllDigits(raw) && Value(raw) == n && n >= 1
  }

  lemma NumberFromLineExactly(u: Unicode, owner: string, repo: string, line: string, n: nat)
    ensures NumberFromLine(u, owner, repo, line) == Some(n) <==> NamesPull(u, owner, repo, line, n)
  {
    hide EqualFold, Value;
    if NumberFromLine(u, owner, repo, line) == Some(n) {
      var parts := Split(line[|HOST|..], '/');
      JoinSplit(line[|HOST|..], '/');
      assert parts == [parts[0], parts[1], "pull", parts[3]];
      assert line == HOST + line[|HOST|..];
    }
    if NamesPull(u, owner, repo, line, n) {
      var a: string, b: string, raw: string :|
        && line == HOST + Join([a, b, "pull", raw], '/') && '/' !in a && '/' !in b
        && EqualFold(u, a, owner) && EqualFold(u, b, repo)
        && 1 <= |raw| <= 10 && AllDigits(raw) && Value(raw) == n && n >= 1;
      PrefixOfSum(HOST, Join([a, b, "pull", raw], '/'));
      DigitsHaveNoSlash(raw);
      var parts := [a, b, "pull", raw];
      assert forall i :: 0 <= i < |parts| ==> '/' !in parts[i];
      SplitJoin(parts, '/');
    }
  }

  lemma DigitsHaveNoSlash(s: string)
    requires AllDigits(s)
    ensures '/' !in s
  {}

  function NumberFromLines(u: Unicode, owner: string, repo: string, lines: seq<string>): (r: Option<nat>)
    ensures r.Some? ==> 1 <= r.value
  {
    if lines == [] then None
    else
      var n := NumberFromLine(u, owner, repo, TrimSpace(lines[0]));
      if n.Some? then n else NumberFromLines(u, owner, repo, lines[1..])
  }

  function NumberFromBody(u: Unicode, owner: string, repo: string, body: string): (r: Option<nat>)
    ensures r.Some? ==> 1 <= r.value
  {
    if owner == "" || repo == "" then None else NumberFromLines(u, owner, repo, Split(body, '\n'))
  }

  /** The number is that of the first line, blanks aside, that names a pull request. */
  lemma {:induction false} FirstLineWins(u: Unicode, owner: string, repo: string, lines: seq<string>, n: nat)
    ensures NumberFromLines(u, owner, repo, lines) == Some(n) <==>
      exists i :: 0 <= i < |lines| && NumberFromLine(u, owner, repo, TrimSpace(lines[i])) == Some(n)
        && forall j :: 0 <= j < i ==> NumberFromLine(u, owner, repo, TrimSpace(lines[j])).None?
  {
    hide NumberFromLine, TrimSpace;
    if lines != [] {
      FirstLineWins(u, owner, repo, lines[1..], n);
      var rest := lines[1..];
      assert forall i :: 0 <= i < |rest| ==> rest[i] == lines[i + 1];
      if NumberFromLine(u, owner, repo, TrimSpace(lines[0])).None? {
        if i :| 0 <= i < |rest| && NumberFromLine(u, owner, repo, TrimSpace(rest[i])) == Some(n)
                && forall j :: 0 <= j < i ==> NumberFromLine(u, owner, repo, TrimSpace(rest[j])).None? {
          forall j | 0 <= j < i + 1 ensures NumberFromLine(u, owner, repo, TrimSpace(lines[j])).None? {
            assert j > 0 ==> lines[j] == rest[j - 1];
          }
          assert lines[i + 1] == rest[i];
        }
        if i :| 0 <= i < |lines| && NumberFromLine(u, owner, repo, TrimSpace(lines[i])) == Some(n)
                && forall j :: 0 <= j < i ==> NumberFromLine(u, owner, repo, TrimSpace(lines[j])).None? {
          assert rest[i - 1] == lines[i];
          forall j | 0 <= j < i - 1 ensures NumberFromLine(u, owner, repo, TrimSpace(rest[j])).None? {
            assert rest[j] == lines[j + 1];
          }
        }
      }
    }
  }

  /** The line, white space aside, is the URL of the pull request. */
  ghost predicate LineNames(u: Unicode, owner: string, repo: string, line: string, n: nat) {
    exists t :: IsTrimmed(line, t) && NamesPull(u, owner, repo, t, n)
  }

  /** Of the body's lines, the first that names a pull request of owner/repo names this one. */
  ghost predicate BodyNames(u: Unicode, owner: string, repo: string, body: string, n: nat) {
    && owner != "" && repo != ""
    && exists lines: seq<string>, i: nat ::
      && i < |lines| && (forall j :: 0 <= j < |lines| ==> '\n' !in lines[j]) && body == Join(lines, '\n')
      && LineNames(u, owner, repo, lines[i], n)
      && forall j, m: nat :: 0 <= j < i ==> !LineNames(u, owner, repo, lines[j], m)
  }

  lemma LineNamesExactly(u: Unicode, owner: string, repo: string, line: string, n: nat)
    ensures NumberFromLine(u, owner, repo, TrimSpace(line)) == Some(n) <==> LineNames(u, owner, repo, line, n)
  {
    hide NumberFromLine, NamesPull, IsTrimmed, TrimSpace;
    TrimSpaceExactly(line, TrimSpace(line));
    NumberFromLineExactly(u, owner, repo, TrimSpace(line), n);
    if t :| IsTrimmed(line, t) && NamesPull(u, owner, repo, t, n) { TrimSpaceExactly(line, t); }
  }

  lemma NoLineNames(u: Unicode, owner: string, repo: string, line: string)
    ensures NumberFromLine(u, owner, repo, TrimSpace(line)).None? <==> forall n: nat :: !LineNames(u, owner, repo, line, n)
  {
    hide NumberFromLine, LineNames, TrimSpace;
    forall n: nat ensures NumberFromLine(u, owner, repo, TrimSpace(line)) == Some(n) <==> LineNames(u, owner, repo, line, n) {
      LineNamesExactly(u, owner, repo, line, n);
    }
  }

  /** A body's number is that of the first of its lines that is the URL of a pull request of
      that repository. */
  lemma NumberFromBodyExactly(u: Unicode, owner: string, repo: string, body: string, n: nat)
    ensures NumberFromBody(u, owner, repo, body) == Some(n) <==> BodyNames(u, owner, repo, body, n)
  {
    hide NumberFromLine, LineNames, TrimSpace, NumberFromLines, Split, Join;
    JoinSplit(body, '\n');
    var lines := Split(body, '\n');
    FirstLineWins(u, owner, repo, lines, n);
    forall j | 0 <= j < |lines|
      ensures NumberFromLine(u, owner, repo, TrimSpace(lines[j])) == Some(n) <==> LineNames(u, owner, repo, lines[j], n)
      ensures NumberFromLine(u, owner, repo, TrimSpace(lines[j])).None? <==> forall m: nat :: !LineNames(u, owner, repo, lines[j], m)
    {
      LineNamesExactly(u, owner, repo, lines[j], n);
      NoLineNames(u, owner, repo, lines[j]);
    }
    forall other: seq<string> | |other| >= 1 && (forall j :: 0 <= j < |other| ==> '\n' !in other[j]) && body == Join(other, '\n')
      ensures other == lines
    {
      SplitJoin(other, '\n');
    }
  }

  /** The task types that share one key per repository. */
  predicate RepoKeyed(taskType: string) { taskType == "update-go" || taskType == "release" || taskType == "build-fix" }

  const REVIEW := "pr-review"

  /** What the derivation looks at. */
  datatype Work = Work(taskType: string, taskId: string, owner: string, repo: string, body: string)

  /** A claim's keys; `fallback` marks a review keyed by its task id. */
  datatype Derived = Derived(primary: string, secondary: string, fallback: bool)

  function DeriveClaimKey(u: Unicode, x: Work): Result<string, ()> {
    if RepoKeyed(x.taskType) then
      var owner, repo := ToLower(u, x.owner), ToLower(u, x.repo);
      if !ValidComponent(owner) || !ValidComponent(repo) then Err(()) else Ok(REPO + owner + "/" + repo)
    else if !ValidComponent(x.taskId) then Err(())
    else Ok(TASK + x.taskId)
  }

  function DeriveClaimKeys(u: Unicode, x: Work): Result<Derived, ()> {
    if x.taskType != REVIEW then
      match DeriveClaimKey(u, x)
      case Ok(primary) => Ok(Derived(primary, "", false))
      case Err(_) => Err(())
    else
      var owner, repo := ToLower(u, x.owner), ToLower(u, x.repo);
      match NumberFromBody(u, owner, repo, x.body)
      case Some(n) =>
        if !ValidComponent(owner) || !ValidComponent(repo) || !ValidComponent(Itoa(n)) then Err(())
        else Ok(Derived(PR + owner + "/" + repo + "/" + Itoa(n), "", false))
      case None =>
        match DeriveClaimKey(u, x)
        case Ok(primary) => Ok(Derived(primary, "", true))
        case Err(_) => Err(())
  }

  /** What a task's claim is meant to exclude: work on one repository, on one pull
      request by number, or on the task alone. */
  datatype Subject = Repository(owner: string, repo: string) | Pull(owner: string, repo: string, n: nat) | Task(id: string)

  function SubjectOf(u: Unicode, x: Work): Subject {
    var owner, repo := ToLower(u, x.owner), ToLower(u, x.repo);
    if RepoKeyed(x.taskType) then Repository(owner, repo)
    else if x.taskType == REVIEW && NumberFromBody(u, owner, repo, x.body).Some? then
      Pull(owner, repo, NumberFromBody(u, owner, repo, x.body).value)
    else Task(x.taskId)
  }

  /** The target a subject is addressed by. */
  function SubjectTarget(s: Subject): ClaimTarget {
    match s
    case Repository(owner, repo) => ClaimTarget("", owner, repo, "")
    case Pull(owner, repo, n) => ClaimTarget("", owner, repo, Itoa(n))
    case Task(id) => ClaimTarget(id, "", "", "")
  }

  /** A derived key is the one key of the subject's target, is never a pair, and leads
      back to that target. */
  lemma DerivedAddressesSubject(u: Unicode, x: Work)
    requires DeriveClaimKeys(u, x).Ok?
    ensures var d := DeriveClaimKeys(u, x).value; var t := SubjectTarget(SubjectOf(u, x));
            && d.secondary == "" && KeyFor(t) == Some(d.primary) && TargetFromKey(d.primary) == Some(t)
            && (d.fallback <==> x.taskType == REVIEW && SubjectOf(u, x).Task?)
  {
    var t := SubjectTarget(SubjectOf(u, x));
    JoinTwo(t.owner, t.repo);
    JoinThree(t.owner, t.repo, t.number, '/');
    assert PR + (t.owner + "/" + t.repo + "/" + t.number) == PR + t.owner + "/" + t.repo + "/" + t.number;
    assert SubjectOf(u, x).Task? ==> ValidComponent(x.taskId);
    assert '/' !in t.owner && '/' !in t.repo;
    hide NumberFromBody, ToLower, TargetFromKey, Join, ValidComponent;
    KeyRoundTrip(t);
  }

  /** Two tasks share a key exactly when they are meant to exclude each other. */
  lemma KeysCollideOnlyWhenMeant(u: Unicode, x: Work, y: Work)
    requires DeriveClaimKeys(u, x).Ok? && DeriveClaimKeys(u, y).Ok?
    ensures DeriveClaimKeys(u, x).value.primary == DeriveClaimKeys(u, y).value.primary
       <==> SubjectOf(u, x) == SubjectOf(u, y)
  {
    DerivedAddressesSubject(u, x);
    DerivedAddressesSubject(u, y);
    if DeriveClaimKeys(u, x).value.primary == DeriveClaimKeys(u, y).value.primary {
      SubjectTargetInjective(u, x, y);
    }
  }

  lemma SubjectTargetInjective(u: Unicode, x: Work, y: Work)
    requires DeriveClaimKeys(u, x).Ok? && DeriveClaimKeys(u, y).Ok?
    requires SubjectTarget(SubjectOf(u, x)) == SubjectTarget(SubjectOf(u, y))
    ensures SubjectOf(u, x) == SubjectOf(u, y)
  {
    if SubjectOf(u, x).Pull? && SubjectOf(u, y).Pull? {
      ItoaInjective(SubjectOf(u, x).n, SubjectOf(u, y).n);
    }
  }

  predicate AllAscii(s: string) { forall i :: 0 <= i < |s| ==> IsAscii(s[i]) }

  /** Names that differ in ASCII case only make no difference, whatever the task type. */
  lemma CaseDoesNotMatter(u: Unicode, x: Work, owner: string, repo: string)
    requires AllAscii(x.owner) && AllAscii(x.repo) && AllAscii(owner) && AllAscii(repo)
    requires EqualFold(u, x.owner, owner) && EqualFold(u, x.repo, repo)
    ensures DeriveClaimKeys(u, x.(owner := owner, repo := repo)) == DeriveClaimKeys(u, x)
  {
    assert ToLower(u, x.owner) == ToLower(u, owner);
    assert ToLower(u, x.repo) == ToLower(u, repo);
    hide ToLower, NumberFromBody, ValidComponent;
  }

  // ---- the keys of ASCII names, in their own words ----

  /** The same letter, in either case. */
  predicate SameLetter(a: char, b: char) {
    || a == b
    || ('A' <= a <= 'Z' && b as int == a as int + 32)
    || ('A' <= b <= 'Z' && a as int == b as int + 32)
  }

  predicate SameButCase(s: string, t: string) {
    |s| == |t| && forall i :: 0 <= i < |s| ==> SameLetter(s[i], t[i])
  }

  predicate NoCapitals(s: string) { forall i :: 0 <= i < |s| ==> !('A' <= s[i] <= 'Z') }

  /** `lower` is the ASCII name in lower case. */
  predicate LowerOf(lower: string, name: string) { AllAscii(name) && NoCapitals(lower) && SameButCase(lower, name) }

  lemma EqualFoldOnAscii(u: Unicode, s: string, t: string)
    requires AllAscii(s) && AllAscii(t)
    ensures EqualFold(u, s, t) <==> SameButCase(s, t)
  {}

  lemma LowerIsToLower(u: Unicode, lower: string, name: string)
    requires LowerOf(lower, name)
    ensures lower == ToLower(u, name)
  {}

  /** Lower-casing decides equality up to case. */
  lemma LowerDecides(o: string, s: string, p: string, t: string)
    requires LowerOf(o, s) && LowerOf(p, t)
    ensures o == p <==> SameButCase(s, t)
  {
    if SameButCase(s, t) {
      forall i | 0 <= i < |o| ensures o[i] == p[i] {
        assert SameLetter(o[i], s[i]) && SameLetter(p[i], t[i]) && SameLetter(s[i], t[i]);
      }
    }
    if o == p {
      forall i | 0 <= i < |s| ensures SameLetter(s[i], t[i]) {
        assert SameLetter(o[i], s[i]) && SameLetter(o[i], t[i]);
      }
    }
  }

  /** Updates, releases and build fixes are keyed by the lower-case repository name. */
  lemma RepositoryKey(u: Unicode, x: Work, owner: string, repo: string)
    requires x.taskType in {"update-go", "release", "build-fix"} && LowerOf(owner, x.owner) && LowerOf(repo, x.repo)
    ensures DeriveClaimKeys(u, x) ==
            if ValidComponent(owner) && ValidComponent(repo)
            then Ok(Derived("claims/repo/" + owner + "/" + repo, "", false)) else Err(())
  {
    LowerIsToLower(u, owner, x.owner);
    LowerIsToLower(u, repo, x.repo);
    hide ToLower, ValidComponent;
  }

  /** A review whose body names a pull request is keyed by its number; any other task, and a
      review whose body names none, by its id. */
  lemma PullKey(u: Unicode, x: Work, owner: string, repo: string, n: nat)
    requires x.taskType == "pr-review" && LowerOf(owner, x.owner) && LowerOf(repo, x.repo)
    requires BodyNames(u, owner, repo, x.body, n)
    ensures DeriveClaimKeys(u, x) ==
            if ValidComponent(owner) && ValidComponent(repo)
            then Ok(Derived("claims/pr/" + owner + "/" + repo + "/" + Itoa(n), "", false)) else Err(())
  {
    LowerIsToLower(u, owner, x.owner);
    LowerIsToLower(u, repo, x.repo);
    NumberFromBodyExactly(u, owner, repo, x.body, n);
    NumberIsValid(n);
    hide ToLower, ValidComponent, NumberFromBody;
  }

  lemma NumberIsValid(n: nat)
    ensures ValidComponent(Itoa(n))
  {
    var s := Itoa(n);
    assert forall i :: 0 <= i < |s| ==> IsDigit(s[i]);
    assert |s| >= 5 ==> s[|s| - 5..][0] != '.';
  }

  lemma TaskKey(u: Unicode, x: Work, owner: string, repo: string)
    requires x.taskType !in {"update-go", "release", "build-fix"} && LowerOf(owner, x.owner) && LowerOf(repo, x.repo)
    requires x.taskType == "pr-review" ==> forall n: nat :: !BodyNames(u, owner, repo, x.body, n)
    ensures DeriveClaimKeys(u, x) ==
            if ValidComponent(x.taskId) then Ok(Derived("claims/task/" + x.taskId, "", x.taskType == "pr-review")) else Err(())
  {
    LowerIsToLower(u, owner, x.owner);
    LowerIsToLower(u, repo, x.repo);
    forall n: nat ensures NumberFromBody(u, owner, repo, x.body) == Some(n) <==> BodyNames(u, owner, repo, x.body, n) {
      NumberFromBodyExactly(u, owner, repo, x.body, n);
    }
    hide ToLower, ValidComponent, NumberFromBody, BodyNames;
  }

  lemma JoinedPull(raw: string)
    ensures "https://github.com/" + Join(["acme", "tool", "pull", raw], '/') == "https://github.com/acme/tool/pull/" + raw
  {
    assert ["acme", "tool", "pull", raw][1..] == ["tool", "pull", raw];
    JoinThree("tool", "pull", raw, '/');
    assert "https://github.com/" + ("acme" + "/" + ("tool" + "/" + "pull" + "/")) == "https://github.com/acme/tool/pull/";
  }

  lemma UrlNames(u: Unicode)
    ensures NamesPull(u, "acme", "tool", "https://github.com/acme/tool/pull/007", 7)
  {
    JoinedPull("007");
    assert Value("007") == 7 by {
      var s := "007";
      assert s[..2] == "00" && "00"[..1] == "0" && "0"[..0] == "";
      assert Value("") == 0 && Value("0") == 0 && Value("00") == 0;
    }
    hide Join;
  }

  lemma Indented(u: Unicode, owner: string, repo: string, url: string, n: nat)
    requires NamesPull(u, owner, repo, url, n) && url != "" && url[0] == 'h' && IsDigit(url[|url| - 1])
    ensures LineNames(u, owner, repo, "  " + url + " ", n)
  {
    hide NamesPull;
    assert !White('h') && White(' ') && !White(url[|url| - 1]);
    hide White;
    var a: string, b: string := "  ", " ";
    assert AllWhite(a) && AllWhite(b);
    assert "  " + url + " " == a + url + b;
  }

  lemma SecondLineNames(u: Unicode, owner: string, repo: string, first: string, line: string, n: nat)
    requires owner != "" && repo != "" && '\n' !in first && '\n' !in line
    requires LineNames(u, owner, repo, line, n) && forall m: nat :: !LineNames(u, owner, repo, first, m)
    ensures BodyNames(u, owner, repo, first + "\n" + line, n)
  {
    hide LineNames;
    var lines := [first, line];
    assert Join(lines, '\n') == first + "\n" + line;
  }

  /** For instance: white space around the line and zeros before the number do not matter. */
  lemma PullExample(u: Unicode)
    ensures BodyNames(u, "acme", "tool", "Please review." + "\n" + ("  " + "https://github.com/acme/tool/pull/007" + " "), 7)
  {
    var first, url: string := "Please review.", "https://github.com/acme/tool/pull/007";
    UrlNames(u);
    hide NamesPull, LineNames, BodyNames;
    assert url[0] == 'h' && url[|url| - 1] == '7';
    Indented(u, "acme", "tool", url, 7);
    forall m: nat ensures !LineNames(u, "acme", "tool", first, m) { NoUrl(u, first, m); }
    assert forall i :: 0 <= i < |url| ==> url[i] != '\n';
    SecondLineNames(u, "acme", "tool", first, "  " + url + " ", 7);
  }

  lemma NoUrl(u: Unicode, line: string, m: nat)
    requires line == "Please review."
    ensures !LineNames(u, "acme", "tool", line, m)
  {
    assert line[0] == 'P' && line[|line| - 1] == '.';
    TrimSpaceExactly(line, line);
    AlreadyTrimmed(line);
    LineNamesExactly(u, "acme", "tool", line, m);
    assert !HasPrefix(line, HOST) by { assert HOST[0] == 'h'; }
  }

  /** Work on two repositories is excluded exactly when their names are the same up to case. */
  lemma RepositoriesExclude(u: Unicode, x: Work, y: Work)
    requires x.taskType in {"update-go", "release", "build-fix"} && y.taskType in {"update-go", "release", "build-fix"}
    requires AllAscii(x.owner) && AllAscii(x.repo) && AllAscii(y.owner) && AllAscii(y.repo)
    requires DeriveClaimKeys(u, x).Ok? && DeriveClaimKeys(u, y).Ok?
    ensures DeriveClaimKeys(u, x).value.primary == DeriveClaimKeys(u, y).value.primary
       <==> SameButCase(x.owner, y.owner) && SameButCase(x.repo, y.repo)
  {
    hide ValidComponent, SubjectTarget;
    KeysCollideOnlyWhenMeant(u, x, y);
    hide DeriveClaimKeys, NumberFromBody;
    LowerExists(u, x.owner); LowerExists(u, x.repo); LowerExists(u, y.owner); LowerExists(u, y.repo);
    LowerDecides(ToLower(u, x.owner), x.owner, ToLower(u, y.owner), y.owner);
    LowerDecides(ToLower(u, x.repo), x.repo, ToLower(u, y.repo), y.repo);
  }

  lemma LowerExists(u: Unicode, name: string)
    requires AllAscii(name)
    ensures LowerOf(ToLower(u, name), name)
  {}

  /** Two reviews exclude each other exactly when they name the same pull request: the same
      number in a repository whose name is the same up to case. */
  lemma PullsExclude(u: Unicode, x: Work, a: string, b: string, n: nat, y: Work, c: string, d: string, m: nat)
    requires x.taskType == "pr-review" && LowerOf(a, x.owner) && LowerOf(b, x.repo) && BodyNames(u, a, b, x.body, n)
    requires y.taskType == "pr-review" && LowerOf(c, y.owner) && LowerOf(d, y.repo) && BodyNames(u, c, d, y.body, m)
    requires DeriveClaimKeys(u, x).Ok? && DeriveClaimKeys(u, y).Ok?
    ensures DeriveClaimKeys(u, x).value.primary == DeriveClaimKeys(u, y).value.primary
       <==> SameButCase(x.owner, y.owner) && SameButCase(x.repo, y.repo) && n == m
  {
    hide ValidComponent, SubjectTarget, BodyNames;
    KeysCollideOnlyWhenMeant(u, x, y);
    hide DeriveClaimKeys, NumberFromBody, ToLower;
    LowerIsToLower(u, a, x.owner); LowerIsToLower(u, b, x.repo); LowerIsToLower(u, c, y.owner); LowerIsToLower(u, d, y.repo);
    NumberFromBodyExactly(u, a, b, x.body, n);
    NumberFromBodyExactly(u, c, d, y.body, m);
    LowerDecides(a, x.owner, c, y.owner);
    LowerDecides(b, x.repo, d, y.repo);
  }
}
