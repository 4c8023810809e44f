/**
 The shared ref store and the reads built on it: per task, and for all tasks from one
 listing.  Refs are create-if-absent keys with a lease; the task, the phase and a number
 (an attempt, or a completion second) are part of the key.
 */
module RefStores {
  import opened Wrappers
  import opened Text
  import opened ClaimKeys

  /** A stored lease; an absent or unparseable one is not a date. */
  datatype Lease = NoDate | Ends(at: int)

  datatype ClaimRef = ClaimRef(ref: string, lease: Lease)

  const REFS := "refs/"
  const STREAK := "claims/redrive/"
  const REASON := "claims/redrive-reason/"
  const SUCCESS := "claims/success/"
  const PHASE_NONE := "none"

  /** The path component of a phase. */
  function Component(phase: string): string { if phase == "" then PHASE_NONE else phase }

  /** A key is prefix itself or lies under it as a whole path component. */
  predicate Under(key: string, prefix: string) {
    var p := if HasSuffix(prefix, "/") then prefix[..|prefix| - 1] else prefix;
    key == p || HasPrefix(key, p + "/")
  }

  /** A ref whose lease cannot be read never expires. */
  predicate Expired(lease: Lease, now: int) { lease.Ends? && now >= lease.at }

  // ---- keys ----

  /** What a numbered key says. */
  datatype Parsed = Parsed(task: string, phase: string, detail: string, n: int)

  function ParseNumber(s: string): Option<int> {
    var n := ParseInt(s);
    if n.None? || n.value < 1 then None else n
  }

  /** Which of the three ref spaces a read is about. */
  datatype Space = Streaks | Reasons | Successes

  function Kind(space: Space): string {
    match space
    case Streaks => "redrive"
    case Reasons => "redrive-reason"
    case Successes => "success"
  }

  function Prefix(space: Space): string {
    match space
    case Streaks => STREAK
    case Reasons => REASON
    case Successes => SUCCESS
  }

  function Segments(space: Space): nat { if space.Reasons? then 6 else 5 }

  /** Five segments claims/<kind>/<task>/<phase>/<n>; a reason ref has its reason before
      the number. */
  function ParseParts(space: Space, parts: seq<string>): Option<Parsed> {
    var last := Segments(space) - 1;
    if |parts| != last + 1 || parts[0] != "claims" || parts[1] != Kind(space) || ParseNumber(parts[last]).None? then None
    else Some(Parsed(parts[2], parts[3], if space.Reasons? then parts[4] else "", ParseNumber(parts[last]).value))
  }

  function Parse(space: Space, ref: string): Option<Parsed> { ParseParts(space, Split(TrimPrefix(ref, REFS), '/')) }

  /** The segments of the key a store writes, and the key. */
  function KeyParts(space: Space, p: Parsed): seq<string>
    requires p.n >= 0
  {
    ["claims", Kind(space), p.task, p.phase] + (if space.Reasons? then [p.detail] else []) + [Itoa(p.n)]
  }

  function BuildKey(space: Space, p: Parsed): string
    requires p.n >= 0
  {
    Join(KeyParts(space, p), '/')
  }

  predicate Buildable(space: Space, p: Parsed) {
    && ValidComponent(p.task) && ValidComponent(p.phase) && 1 <= p.n <= MAX_INT
    && (if space.Reasons? then ValidComponent(p.detail) else p.detail == "")
  }

  /** Parsing undoes building. */
  lemma ParseBuild(space: Space, p: Parsed)
    requires Buildable(space, p)
    ensures Parse(space, REFS + BuildKey(space, p)) == Some(p)
  {
    hide Split, Join, ParseInt;
    ParseItoa(p.n);
    PrefixOfSum(REFS, BuildKey(space, p));
    var parts := KeyParts(space, p);
    PartsAreClean(space, p);
    SplitJoin(parts, '/');
    assert parts[|parts| - 1] == Itoa(p.n);
  }

  lemma PartsAreClean(space: Space, p: Parsed)
    requires p.n >= 0 && ValidComponent(p.task) && ValidComponent(p.phase)
    requires space.Reasons? ==> ValidComponent(p.detail)
    ensures forall i :: 0 <= i < |KeyParts(space, p)| ==> '/' !in KeyParts(space, p)[i]
  {
    assert '/' !in Itoa(p.n);
  }

  /** Every ref that parses as one of a task's lies under the task's prefix, so the
      task's own listing and the listing of the whole space both show it. */
  lemma ParsedIsUnder(space: Space, key: string)
    requires Parse(space, REFS + key).Some?
    ensures Under(key, Prefix(space)) && Under(key, Prefix(space) + Parse(space, REFS + key).value.task)
  {
    hide Split, Join, ParseNumber, Under;
    PrefixOfSum(REFS, key);
    var parts := Split(key, '/');
    JoinSplit(key, '/');
    JoinPrefix(parts, 3, '/');
    assert parts[..3] == ["claims", Kind(space), parts[2]];
    JoinThree("claims", Kind(space), parts[2], '/');
    UnderPrefix(space, key, parts[2]);
  }

  /** A prefix that ends in a separator, or in no separator, means the path before it. */
  lemma UnderPath(key: string, path: string)
    requires HasPrefix(key, path + "/")
    ensures Under(key, path + "/") && (!HasSuffix(path, "/") ==> Under(key, path))
  {
    hide HasPrefix;
    assert (path + "/")[..|path|] == path && HasSuffix(path + "/", "/");
  }

  lemma UnderPrefix(space: Space, key: string, task: string)
    requires HasPrefix(key, "claims" + "/" + Kind(space) + "/" + task + "/") && '/' !in task
    ensures Under(key, Prefix(space)) && Under(key, Prefix(space) + task)
  {
    var path := "claims" + "/" + Kind(space);
    var whole := path + "/" + task;
    assert Prefix(space) == path + "/";
    assert whole + "/" == path + "/" + (task + "/");
    assert task != "" ==> whole[|whole| - 1] == task[|task| - 1] && !HasSuffix(whole, "/");
    assert task == "" ==> whole == path + "/";
    hide HasPrefix, Under, Kind, Prefix;
    PrefixOfPrefix(key, path + "/", task + "/");
    UnderPath(key, path);
    if task != "" { UnderPath(key, whole); }
  }

  // ---- the keys in their own words ----

  /** A positive number of 64 bits in decimal, with any leading zeros and perhaps a plus. */
  ghost predicate NumberText(s: string, n: int) {
    exists digits: string ::
      && digits != "" && AllDigits(digits) && (s == digits || s == "+" + digits)
      && Value(digits) == n && 1 <= n <= 9223372036854775807
  }

  lemma ParseNumberExactly(s: string, n: int)
    ensures ParseNumber(s) == Some(n) <==> NumberText(s, n)
  {
    if ParseNumber(s) == Some(n) {
      var digits := if s[0] == '+' then s[1..] else s;
      assert s == digits || s == "+" + digits;
    }
    if NumberText(s, n) {
      var digits: string :|
        && digits != "" && AllDigits(digits) && (s == digits || s == "+" + digits)
        && Value(digits) == n && 1 <= n <= 9223372036854775807;
      assert IsDigit(digits[0]);
      assert s == "+" + digits ==> s[1..] == digits;
    }
  }

  /** The text of a ref's key. */
  ghost predicate RefText(space: Space, p: Parsed, key: string) {
    && '/' !in p.task && '/' !in p.phase && '/' !in p.detail
    && exists number: string ::
      && NumberText(number, p.n)
      && match space
         case Streaks => p.detail == "" && key == "claims/redrive/" + p.task + "/" + p.phase + "/" + number
         case Reasons => key == "claims/redrive-reason/" + p.task + "/" + p.phase + "/" + p.detail + "/" + number
         case Successes => p.detail == "" && key == "claims/success/" + p.task + "/" + p.phase + "/" + number
  }

  /** The segments of a key of the space. */
  function TextParts(space: Space, p: Parsed, number: string): seq<string> {
    match space
    case Streaks => ["claims", "redrive", p.task, p.phase, number]
    case Reasons => ["claims", "redrive-reason", p.task, p.phase, p.detail, number]
    case Successes => ["claims", "success", p.task, p.phase, number]
  }

  lemma TextIsJoined(space: Space, p: Parsed, number: string, key: string)
    requires space.Reasons? || p.detail == ""
    ensures key == Join(TextParts(space, p, number), '/') <==>
            key == match space
                   case Streaks => "claims/redrive/" + p.task + "/" + p.phase + "/" + number
                   case Reasons => "claims/redrive-reason/" + p.task + "/" + p.phase + "/" + p.detail + "/" + number
                   case Successes => "claims/success/" + p.task + "/" + p.phase + "/" + number
  {
    match space
    case Streaks =>
      JoinFive("claims", "redrive", p.task, p.phase, number, '/');
      assert "claims" + "/" + "redrive" + "/" == "claims/redrive/";
    case Reasons =>
      JoinSix("claims", "redrive-reason", p.task, p.phase, p.detail, number, '/');
      assert "claims" + "/" + "redrive-reason" + "/" == "claims/redrive-reason/";
    case Successes =>
      JoinFive("claims", "success", p.task, p.phase, number, '/');
      assert "claims" + "/" + "success" + "/" == "claims/success/";
  }

  lemma NumberHasNoSlash(s: string, n: int)
    requires NumberText(s, n)
    ensures '/' !in s
  {}

  /** A ref parses exactly when its key is the text of what it says. */
  lemma ParseExactly(space: Space, key: string, p: Parsed)
    ensures Parse(space, "refs/" + key) == Some(p) <==> RefText(space, p, key)
  {
    hide Split, Join, NumberText, ParseNumber;
    PrefixOfSum(REFS, key);
    if Parse(space, REFS + key) == Some(p) {
      var parts := Split(key, '/');
      var number := parts[|parts| - 1];
      JoinSplit(key, '/');
      ParseNumberExactly(number, p.n);
      assert parts == TextParts(space, p, number);
      TextIsJoined(space, p, number, key);
    }
    if RefText(space, p, key) { TextParses(space, key, p); }
  }

  lemma TextParses(space: Space, key: string, p: Parsed)
    requires RefText(space, p, key)
    ensures Parse(space, REFS + key) == Some(p)
  {
    hide Split, Join, NumberText, ParseNumber;
    PrefixOfSum(REFS, key);
    var number: string :|
      && NumberText(number, p.n)
      && match space
         case Streaks => p.detail == "" && key == "claims/redrive/" + p.task + "/" + p.phase + "/" + number
         case Reasons => key == "claims/redrive-reason/" + p.task + "/" + p.phase + "/" + p.detail + "/" + number
         case Successes => p.detail == "" && key == "claims/success/" + p.task + "/" + p.phase + "/" + number;
    NumberHasNoSlash(number, p.n);
    ParseNumberExactly(number, p.n);
    TextIsJoined(space, p, number, key);
    var parts := TextParts(space, p, number);
    assert forall i :: 0 <= i < |parts| ==> '/' !in parts[i];
    SplitJoin(parts, '/');
  }

  /** A prefix, with or without its last separator, covers the path it names and everything
      below it. */
  lemma UnderExactly(key: string, path: string)
    ensures Under(key, path + "/") <==> key == path || exists rest: string :: key == path + "/" + rest
    ensures (path == "" || path[|path| - 1] != '/') ==> (Under(key, path) <==> Under(key, path + "/"))
  {
    assert (path + "/")[..|path|] == path && HasSuffix(path + "/", "/");
    if HasPrefix(key, path + "/") { assert key == path + "/" + key[|path| + 1..]; }
    if rest: string :| key == path + "/" + rest { assert key[..|path| + 1] == path + "/"; }
    assert path != "" ==> path[|path| - 1..] == [path[|path| - 1]];
  }

  // ---- what a read is about ----

  /** A listed ref counts for a task at a phase component; with a clock reading, only
      while its lease has not passed. */
  predicate Hit(space: Space, r: ClaimRef, task: string, phase: string, now: Option<int>) {
    var p := Parse(space, r.ref);
    && p.Some? && p.value.task == task && p.value.phase == phase
    && (now.Some? ==> !Expired(r.lease, now.value))
  }

  /** The refs of the store that count. */
  function Live(refs: map<string, Lease>, space: Space, task: string, phase: string, now: Option<int>): set<string> {
    set k | k in refs && Hit(space, ClaimRef(REFS + k, refs[k]), task, phase, now) :: REFS + k
  }

  /** What counts for a task at a phase: the refs whose key says so, and whose lease has no
      date or has not passed. */
  lemma LiveExactly(refs: map<string, Lease>, space: Space, task: string, phase: string, now: Option<int>, key: string)
    ensures "refs/" + key in Live(refs, space, task, phase, now) <==>
            && key in refs && (exists p :: RefText(space, p, key) && p.task == task && p.phase == phase)
            && (now.None? || refs[key].NoDate? || now.value < refs[key].at)
  {
    hide Parse, RefText;
    forall p ensures Parse(space, REFS + key) == Some(p) <==> RefText(space, p, key) { ParseExactly(space, key, p); }
    if REFS + key in Live(refs, space, task, phase, now) {
      var k :| k in refs && Hit(space, ClaimRef(REFS + k, refs[k]), task, phase, now) && REFS + k == REFS + key;
      PrefixOfSum(REFS, k);
      PrefixOfSum(REFS, key);
    }
    if key in refs && (exists p :: RefText(space, p, key) && p.task == task && p.phase == phase) {
      var p :| RefText(space, p, key) && p.task == task && p.phase == phase;
    }
  }

  /** The refs among the first i of a listing that count. */
  function Hits(list: seq<ClaimRef>, i: nat, space: Space, task: string, phase: string, now: Option<int>): set<string>
    requires i <= |list|
  {
    set j | 0 <= j < i && Hit(space, list[j], task, phase, now) :: list[j].ref
  }

  ghost predicate Shows(r: ClaimRef, refs: map<string, Lease>, prefix: string) {
    exists k :: k in refs && Under(k, prefix) && r == ClaimRef(REFS + k, refs[k])
  }

  /** A listing shows each ref under the prefix once, with its lease. */
  ghost predicate Lists(list: seq<ClaimRef>, refs: map<string, Lease>, prefix: string) {
    && (forall j :: 0 <= j < |list| ==> Shows(list[j], refs, prefix))
    && (forall k :: k in refs && Under(k, prefix) ==> ClaimRef(REFS + k, refs[k]) in list)
    && (forall i, j :: 0 <= i < j < |list| ==> list[i].ref != list[j].ref)
  }

  lemma NextHit(list: seq<ClaimRef>, i: nat, space: Space, task: string, phase: string, now: Option<int>)
    requires i < |list| && forall i, j :: 0 <= i < j < |list| ==> list[i].ref != list[j].ref
    ensures var before := Hits(list, i, space, task, phase, now);
            && list[i].ref !in before
            && Hits(list, i + 1, space, task, phase, now)
            == (if Hit(space, list[i], task, phase, now) then before + {list[i].ref} else before)
  {}

  /** Whichever of the two prefixes it was listed with, a listing shows the same hits. */
  lemma AllHits(
    list: seq<ClaimRef>, refs: map<string, Lease>, prefix: string, space: Space, task: string, phase: string, now: Option<int>)
    requires Lists(list, refs, prefix) && (prefix == Prefix(space) || prefix == Prefix(space) + task)
    ensures Hits(list, |list|, space, task, phase, now) == Live(refs, space, task, phase, now)
  {
    hide Parse, Under;
    var hits, live := Hits(list, |list|, space, task, phase, now), Live(refs, space, task, phase, now);
    forall ref | ref in hits ensures ref in live {
      var j :| 0 <= j < |list| && Hit(space, list[j], task, phase, now) && list[j].ref == ref;
      var k :| k in refs && Under(k, prefix) && list[j] == ClaimRef(REFS + k, refs[k]);
    }
    forall ref | ref in live ensures ref in hits {
      var k :| k in refs && Hit(space, ClaimRef(REFS + k, refs[k]), task, phase, now) && ref == REFS + k;
      ParsedIsUnder(space, k);
      assert ClaimRef(REFS + k, refs[k]) in list;
    }
  }

  // ---- reasons in order ----

  function NumberOf(ref: string): int {
    var p := Parse(Reasons, ref);
    if p.Some? then p.value.n else 0
  }

  function ReasonOf(ref: string): string {
    var p := Parse(Reasons, ref);
    if p.Some? then p.value.detail else ""
  }

  /** The refs of a set, once each, by ascending number; ties are in any order. */
  ghost predicate Sorting(ks: seq<string>, refs: set<string>) {
    && (forall k :: k in ks <==> k in refs)
    && (forall i, j :: 0 <= i < j < |ks| ==> ks[i] != ks[j] && NumberOf(ks[i]) <= NumberOf(ks[j]))
  }

  function ReasonsAlong(ks: seq<string>): (r: seq<string>)
    ensures |r| == |ks|
  {
    seq(|ks|, i requires 0 <= i < |ks| => ReasonOf(ks[i]))
  }

  /** `reasons` are the reasons of the refs by ascending number. */
  ghost predicate InOrder(reasons: seq<string>, refs: set<string>) {
    exists ks :: Sorting(ks, refs) && reasons == ReasonsAlong(ks)
  }

  ghost predicate DistinctNumbers(refs: set<string>) {
    forall a, b :: a in refs && b in refs && NumberOf(a) == NumberOf(b) ==> a == b
  }

  lemma {:induction false} SortingUnique(a: seq<string>, b: seq<string>, refs: set<string>)
    requires Sorting(a, refs) && Sorting(b, refs) && DistinctNumbers(refs)
    ensures a == b
    decreases |a|
  {
    if a == [] || b == [] {
      NonemptySorting(a, b, refs);
    } else {
      assert a[0] in b && b[0] in a;
      assert NumberOf(a[0]) == NumberOf(b[0]);
      SortingTail(a, refs);
      SortingTail(b, refs);
      SortingUnique(a[1..], b[1..], refs - {a[0]});
      assert a == [a[0]] + a[1..] && b == [b[0]] + b[1..];
    }
  }

  lemma NonemptySorting(a: seq<string>, b: seq<string>, refs: set<string>)
    requires Sorting(a, refs) && Sorting(b, refs)
    ensures a == [] <==> b == []
  {
    assert a == [] <==> refs == {} by { assert a != [] ==> a[0] in refs; }
    assert b == [] <==> refs == {} by { assert b != [] ==> b[0] in refs; }
  }

  lemma SortingTail(a: seq<string>, refs: set<string>)
    requires Sorting(a, refs) && a != []
    ensures Sorting(a[1..], refs - {a[0]})
  {
    forall k ensures k in a[1..] <==> k in refs - {a[0]} {
      if k in a[1..] { var i :| 0 <= i < |a[1..]| && a[1..][i] == k; assert a[i + 1] == k; }
      if k in refs - {a[0]} { assert k in a; var i :| 0 <= i < |a| && a[i] == k; assert a[1..][i - 1] == k; }
    }
  }

  /** With distinct attempt numbers there is only one list of reasons. */
  lemma InOrderUnique(r: seq<string>, s: seq<string>, refs: set<string>)
    requires InOrder(r, refs) && InOrder(s, refs) && DistinctNumbers(refs)
    ensures r == s
  {
    var a :| Sorting(a, refs) && r == ReasonsAlong(a);
    var b :| Sorting(b, refs) && s == ReasonsAlong(b);
    SortingUnique(a, b, refs);
  }
}
