/**
 * The administrator's alert board: a list of alerts held by the component,
 * rewritten in place when an alert is resolved or dismissed, and the filtered
 * views over it.
 */
module Alerts {
  import opened Wrappers
  import opened Seqs

  datatype Severity = Critical | Warning | Info | Success
  {
    /** The value the severity filter compares with. */
    function Name(): string
    {
      match this
      case Critical => "critical"
      case Warning => "warning"
      case Info => "info"
      case Success => "success"
    }
  }

  datatype AlertStatus = Active | Resolved | Dismissed
  {
    /** The value the status filter compares with. */
    function Name(): string
    {
      match this
      case Active => "active"
      case Resolved => "resolved"
      case Dismissed => "dismissed"
    }
  }

  datatype Alert = Alert(
    id: string,
    title: string,
    message: string,
    severity: Severity,
    status: AlertStatus,
    category: string,
    createdAt: int,
    resolvedAt: Option<int>,
    userId: Option<string>,
    relatedId: Option<string>)

  /** The alert as `handleResolveAlert` rewrites it. */
  function MarkResolved(a: Alert, now: int): Alert
  {
    a.(status := Resolved, resolvedAt := Some(now))
  }

  /** The alert as `handleDismissAlert` rewrites it: the resolution time is left alone. */
  function MarkDismissed(a: Alert): Alert
  {
    a.(status := Dismissed)
  }

  /**
   * The list after resolving `id` at `now`: same length; every alert with that
   * identifier resolved at `now`, every other alert unchanged.
   */
  function ResolvedIn(alerts: seq<Alert>, id: string, now: int): (r: seq<Alert>)
    ensures |r| == |alerts|
    ensures forall i :: 0 <= i < |alerts| && alerts[i].id == id ==>
              r[i].status == Resolved && r[i].resolvedAt == Some(now) && r[i] == MarkResolved(alerts[i], now)
    ensures forall i :: 0 <= i < |alerts| && alerts[i].id != id ==> r[i] == alerts[i]
  {
    UpdateWhere(alerts, (a: Alert) => a.id == id, (a: Alert) => MarkResolved(a, now))
  }

  /**
   * The list after dismissing `id`: same length; every alert with that
   * identifier dismissed with its resolution time kept, every other alert
   * unchanged.
   */
  function DismissedIn(alerts: seq<Alert>, id: string): (r: seq<Alert>)
    ensures |r| == |alerts|
    ensures forall i :: 0 <= i < |alerts| && alerts[i].id == id ==>
              r[i].status == Dismissed && r[i].resolvedAt == alerts[i].resolvedAt && r[i] == MarkDismissed(alerts[i])
    ensures forall i :: 0 <= i < |alerts| && alerts[i].id != id ==> r[i] == alerts[i]
  {
    UpdateWhere(alerts, (a: Alert) => a.id == id, MarkDismissed)
  }

  /** The board's state: its list of alerts. */
  class AlertBoard {
    var alerts: seq<Alert>

    constructor (initial: seq<Alert>)
      ensures alerts == initial
    {
      alerts := initial;
    }

    /** `handleResolveAlert` at clock reading `now`. */
    method ResolveAlert(id: string, now: int)
      modifies this
      ensures alerts == ResolvedIn(old(alerts), id, now)
    {
      alerts := ResolvedIn(alerts, id, now);
    }

    /** `handleDismissAlert`. */
    method DismissAlert(id: string)
      modifies this
      ensures alerts == DismissedIn(old(alerts), id)
    {
      alerts := DismissedIn(alerts, id);
    }
  }

  predicate IsActive(a: Alert) { a.status == Active }

  /** The Resolve and Dismiss buttons are offered exactly for active alerts. */
  predicate OffersActions(a: Alert) { IsActive(a) }

  /** Resolving never adds an active alert; afterwards no alert with that identifier offers actions. */
  lemma {:induction false} ResolveRetiresActions(alerts: seq<Alert>, id: string, now: int)
    ensures Count(ResolvedIn(alerts, id, now), IsActive) <= Count(alerts, IsActive)
    ensures forall a :: a in ResolvedIn(alerts, id, now) && a.id == id ==> !OffersActions(a)
  {
    if alerts != [] {
      ResolveRetiresActions(alerts[1..], id, now);
      var r := ResolvedIn(alerts, id, now);
      assert r[1..] == ResolvedIn(alerts[1..], id, now);
      assert r == [r[0]] + r[1..];
    }
  }

  /** Dismissing never adds an active alert; afterwards no alert with that identifier offers actions. */
  lemma {:induction false} DismissRetiresActions(alerts: seq<Alert>, id: string)
    ensures Count(DismissedIn(alerts, id), IsActive) <= Count(alerts, IsActive)
    ensures forall a :: a in DismissedIn(alerts, id) && a.id == id ==> !OffersActions(a)
  {
    if alerts != [] {
      DismissRetiresActions(alerts[1..], id);
      var d := DismissedIn(alerts, id);
      assert d[1..] == DismissedIn(alerts[1..], id);
      assert d == [d[0]] + d[1..];
    }
  }

  /** Dismissing twice is dismissing once; resolving twice at the same time is resolving once. */
  lemma UpdatesIdempotent(alerts: seq<Alert>, id: string, now: int)
    ensures DismissedIn(DismissedIn(alerts, id), id) == DismissedIn(alerts, id)
    ensures ResolvedIn(ResolvedIn(alerts, id, now), id, now) == ResolvedIn(alerts, id, now)
  {
  }

  /** The text of `s` with the ASCII capitals lowered. */
  function Lower(s: string): (r: string)
    ensures |r| == |s|
    ensures forall i :: 0 <= i < |s| ==> r[i] == LowerChar(s[i])
  {
    seq(|s|, i requires 0 <= i < |s| => LowerChar(s[i]))
  }

  function LowerChar(c: char): char
  {
    if 'A' <= c <= 'Z' then (c as int + 32) as char else c
  }

  /** `needle` occurs in `hay` starting at `i`. */
  predicate OccursAt(hay: string, needle: string, i: int)
  {
    0 <= i <= |hay| - |needle| && hay[i..i + |needle|] == needle
  }

  /** `hay.includes(needle)`. */
  predicate Includes(hay: string, needle: string)
  {
    exists i :: 0 <= i <= |hay| && OccursAt(hay, needle, i)
  }

  /** `filter === 'all' || value === filter`. */
  predicate FilterAccepts(filter: string, value: string)
  {
    filter == "all" || value == filter
  }

  /** The criteria of `filteredAlerts`, all of which an alert must meet. */
  predicate MatchesCriteria(a: Alert, search: string, severityFilter: string, statusFilter: string, categoryFilter: string)
  {
    (Includes(Lower(a.title), Lower(search)) || Includes(Lower(a.message), Lower(search))) &&
    FilterAccepts(severityFilter, a.severity.Name()) &&
    FilterAccepts(statusFilter, a.status.Name()) &&
    FilterAccepts(categoryFilter, a.category)
  }

  /**
   * `filteredAlerts`: in list order, exactly the alerts whose title or
   * message contains the search term ignoring case, and whose severity,
   * status and category each match their filter or the filter is `all`.
   */
  function FilteredAlerts(alerts: seq<Alert>, search: string, severityFilter: string,
                          statusFilter: string, categoryFilter: string): (r: seq<Alert>)
    ensures IsSubsequence(r, alerts)
    ensures forall a :: a in r <==>
      a in alerts &&
      (Includes(Lower(a.title), Lower(search)) || Includes(Lower(a.message), Lower(search))) &&
      FilterAccepts(severityFilter, a.severity.Name()) &&
      FilterAccepts(statusFilter, a.status.Name()) &&
      FilterAccepts(categoryFilter, a.category)
    ensures forall a :: multiset(r)[a] ==
                        if MatchesCriteria(a, search, severityFilter, statusFilter, categoryFilter)
                        then multiset(alerts)[a] else 0
  {
    Filter(alerts, (a: Alert) => MatchesCriteria(a, search, severityFilter, statusFilter, categoryFilter))
  }

  /** With every filter at `all` and an empty search, every alert is listed, in order. */
  lemma UnfilteredShowsAll(alerts: seq<Alert>)
    ensures FilteredAlerts(alerts, "", "all", "all", "all") == alerts
  {
    forall i | 0 <= i < |alerts| ensures MatchesCriteria(alerts[i], "", "all", "all", "all") {
      assert OccursAt(Lower(alerts[i].title), Lower(""), 0);
    }
    FilterKeepsAll(alerts, (a: Alert) => MatchesCriteria(a, "", "all", "all", "all"));
  }

  /** `activeAlerts`. */
  function ActiveAlerts(alerts: seq<Alert>): (r: seq<Alert>)
    ensures IsSubsequence(r, alerts)
    ensures forall a :: a in r <==> a in alerts && a.status == Active
    ensures forall a :: multiset(r)[a] == if a.status == Active then multiset(alerts)[a] else 0
  {
    Filter(alerts, IsActive)
  }

  predicate IsCritical(a: Alert) { a.severity == Critical }

  /** `criticalAlerts`: taken from the active ones. */
  function CriticalAlerts(alerts: seq<Alert>): (r: seq<Alert>)
    ensures IsSubsequence(r, ActiveAlerts(alerts))
    ensures forall a :: a in r <==> a in alerts && a.status == Active && a.severity == Critical
    ensures forall a :: multiset(r)[a] == if a.status == Active && a.severity == Critical then multiset(alerts)[a] else 0
  {
    Filter(ActiveAlerts(alerts), IsCritical)
  }

  /** The critical alerts are among the active ones, which are among all the alerts, in order. */
  lemma CriticalWithinActive(alerts: seq<Alert>)
    ensures IsSubsequence(CriticalAlerts(alerts), alerts)
    ensures |CriticalAlerts(alerts)| <= |ActiveAlerts(alerts)| <= |alerts|
  {
    SubsequenceTransitive(CriticalAlerts(alerts), ActiveAlerts(alerts), alerts);
  }

  /** An argument of `cn`: a class name, or `false` from a condition that did not hold. */
  datatype ClassArg = Class(name: string) | Off

  /** The value each argument stands for once falsy ones count as empty: `false` reads as "". */
  function ArgNames(args: seq<ClassArg>): (r: seq<string>)
    ensures |r| == |args|
    ensures forall i :: 0 <= i < |args| ==> r[i] == if args[i].Class? then args[i].name else ""
  {
    if args == [] then [] else [if args[0].Class? then args[0].name else ""] + ArgNames(args[1..])
  }

  /** JavaScript truthiness of a class-name string: only the empty one is falsy. */
  predicate IsTruthy(n: string) { n != "" }

  /** Each non-empty name occurs among the argument values as often as it is passed as a class. */
  lemma {:induction false} NamesCount(args: seq<ClassArg>)
    ensures forall n :: n != "" ==> multiset(ArgNames(args))[n] == multiset(args)[Class(n)]
    ensures forall n :: n != "" ==> (n in ArgNames(args) <==> Class(n) in args)
  {
    if args != [] {
      NamesCount(args[1..]);
      assert args == [args[0]] + args[1..];
      assert ArgNames(args) == [ArgNames(args)[0]] + ArgNames(args[1..]);
    }
  }

  /** `classes.filter(Boolean)`: the non-empty class names, in order. */
  function KeptClasses(args: seq<ClassArg>): (r: seq<string>)
    ensures forall i :: 0 <= i < |r| ==> r[i] != ""
    ensures |r| <= |args|
    ensures (forall i :: 0 <= i < |args| ==> args[i].Off? || args[i].name == "") ==> r == []
  {
    if args == [] then []
    else
      var rest := KeptClasses(args[1..]);
      if args[0].Class? && args[0].name != "" then [args[0].name] + rest else rest
  }

  /** Keeping the non-empty class names is filtering the argument values by truthiness. */
  lemma {:induction false} KeptIsFilter(args: seq<ClassArg>)
    ensures KeptClasses(args) == Filter(ArgNames(args), IsTruthy)
  {
    if args != [] {
      KeptIsFilter(args[1..]);
      var names := ArgNames(args);
      assert names[1..] == ArgNames(args[1..]);
    }
  }

  /**
   * What `filter(Boolean)` keeps: the non-empty class names in the order they
   * are passed, each as often as it is passed, and nothing else.
   */
  lemma KeptClassesMeaning(args: seq<ClassArg>)
    ensures IsSubsequence(KeptClasses(args), ArgNames(args))
    ensures forall n :: multiset(KeptClasses(args))[n] == if n == "" then 0 else multiset(args)[Class(n)]
    ensures forall n :: n in KeptClasses(args) <==> n != "" && Class(n) in args
  {
    KeptIsFilter(args);
    NamesCount(args);
  }

  /** The sum of the lengths of `parts`. */
  function TotalLength(parts: seq<string>): nat
  {
    if parts == [] then 0 else |parts[0]| + TotalLength(parts[1..])
  }

  /** Where part `i` starts once the parts before it are laid out with one space after each. */
  function Offset(parts: seq<string>, i: nat): nat
    requires i <= |parts|
  {
    TotalLength(parts[..i]) + i
  }

  /**
   * `r` is `parts` laid out one after the other with a single space between
   * neighbours and nothing else: its length is the parts' total length plus
   * the separators, part `i` sits at `Offset(parts, i)`, and a space follows
   * every part but the last.
   */
  predicate JoinedBySpaces(r: string, parts: seq<string>)
  {
    (parts == [] ==> r == "") &&
    (parts != [] ==> |r| == TotalLength(parts) + |parts| - 1) &&
    (forall i :: 0 <= i < |parts| ==>
       Offset(parts, i) + |parts[i]| <= |r| && r[Offset(parts, i)..Offset(parts, i) + |parts[i]|] == parts[i]) &&
    (forall i :: 0 <= i < |parts| - 1 ==>
       Offset(parts, i) + |parts[i]| < |r| && r[Offset(parts, i) + |parts[i]|] == ' ')
  }

  /** Part `i + 1` of a list starts one part and one space later than part `i` of its tail. */
  lemma OffsetStep(parts: seq<string>, i: nat)
    requires 0 < |parts| && i < |parts|
    ensures Offset(parts, i + 1) == |parts[0]| + 1 + Offset(parts[1..], i)
  {
    assert parts[..i + 1][1..] == parts[1..][..i];
  }

  /** Putting a part and a space in front of a joined tail joins the whole list. */
  lemma JoinStep(parts: seq<string>, tail: string)
    requires |parts| >= 2 && JoinedBySpaces(tail, parts[1..])
    ensures JoinedBySpaces(parts[0] + " " + tail, parts)
  {
    var r := parts[0] + " " + tail;
    var shift := |parts[0]| + 1;
    assert Offset(parts, 0) == 0 by { assert parts[..0] == []; }
    assert r[..|parts[0]|] == parts[0];
    forall i | 0 < i < |parts|
      ensures Offset(parts, i) == shift + Offset(parts[1..], i - 1)
      ensures Offset(parts, i) + |parts[i]| <= |r|
      ensures r[Offset(parts, i)..Offset(parts, i) + |parts[i]|] == parts[i]
    {
      OffsetStep(parts, i - 1);
      var o := Offset(parts[1..], i - 1);
      assert parts[1..][i - 1] == parts[i];
      assert r[shift + o..shift + o + |parts[i]|] == tail[o..o + |parts[i]|];
    }
    forall i | 0 < i < |parts| - 1
      ensures Offset(parts, i) + |parts[i]| < |r| && r[Offset(parts, i) + |parts[i]|] == ' '
    {
      var o := Offset(parts[1..], i - 1);
      assert parts[1..][i - 1] == parts[i];
      assert r[shift + o + |parts[i]|] == tail[o + |parts[i]|];
    }
  }

  /** `parts.join(' ')`. */
  function JoinWithSpaces(parts: seq<string>): (r: string)
    ensures JoinedBySpaces(r, parts)
  {
    if parts == [] then ""
    else if |parts| == 1 then
      assert parts[..0] == [] && parts[1..] == [];
      parts[0]
    else
      var tail := JoinWithSpaces(parts[1..]);
      JoinStep(parts, tail);
      parts[0] + " " + tail
  }

  /**
   * `cn`: the non-empty class names laid out with single spaces between them;
   * empty exactly when no argument is a non-empty class name.
   */
  function Cn(args: seq<ClassArg>): (r: string)
    ensures JoinedBySpaces(r, KeptClasses(args))
    ensures r == "" <==> forall i :: 0 <= i < |args| ==> args[i].Off? || args[i].name == ""
  {
    var kept := KeptClasses(args);
    NothingKept(args);
    JoinedEmpty(JoinWithSpaces(kept), kept);
    JoinWithSpaces(kept)
  }

  /** No name is kept exactly when every argument is off or an empty name. */
  lemma NothingKept(args: seq<ClassArg>)
    ensures KeptClasses(args) == [] <==> forall i :: 0 <= i < |args| ==> args[i].Off? || args[i].name == ""
  {
    var kept := KeptClasses(args);
    KeptClassesMeaning(args);
    if kept == [] {
      forall i | 0 <= i < |args| ensures args[i].Off? || args[i].name == "" {
        assert args[i] in args;
      }
    }
  }

  /** A join of non-empty parts is empty exactly when there are no parts. */
  lemma JoinedEmpty(r: string, parts: seq<string>)
    requires JoinedBySpaces(r, parts)
    requires forall i :: 0 <= i < |parts| ==> parts[i] != ""
    ensures r == "" <==> parts == []
  {
    if parts != [] {
      assert Offset(parts, 0) + |parts[0]| <= |r|;
    }
  }

  const LeftBorder: string := "border-l-4"
  const CriticalBorder: string := "border-l-destructive"
  const WarningBorder: string := "border-l-yellow-500"
  const InfoBorder: string := "border-l-blue-500"
  const SuccessBorder: string := "border-l-success"

  /** The border colour class of an alert card. */
  function SeverityBorder(s: Severity): string
  {
    match s
    case Critical => CriticalBorder
    case Warning => WarningBorder
    case Info => InfoBorder
    case Success => SuccessBorder
  }

  /** The arguments the alert list passes to `cn` for a card of severity `s`. */
  function CardClassArgs(s: Severity): seq<ClassArg>
  {
    [Class(LeftBorder),
     if s == Critical then Class(CriticalBorder) else Off,
     if s == Warning then Class(WarningBorder) else Off,
     if s == Info then Class(InfoBorder) else Off,
     if s == Success then Class(SuccessBorder) else Off]
  }

  /** When only the class at `k` is switched on, `cn` keeps exactly that class. */
  lemma {:induction false} KeptSingle(args: seq<ClassArg>, k: nat, name: string)
    requires k < |args| && args[k] == Class(name) && name != ""
    requires forall i :: 0 <= i < |args| && i != k ==> args[i].Off?
    ensures KeptClasses(args) == [name]
  {
    if k == 0 {
      assert forall i :: 0 <= i < |args[1..]| ==> args[1..][i] == args[i + 1];
    } else {
      KeptSingle(args[1..], k - 1, name);
    }
  }

  /** Two parts join as the first, a space, and the second. */
  lemma JoinTwo(a: string, b: string)
    ensures JoinWithSpaces([a, b]) == a + " " + b
  {
    assert [a, b][1..] == [b];
  }

  /**
   * An alert card's classes: the four conditions exclude each other, so the
   * card always gets the left border and exactly one colour for it.
   */
  lemma CardClasses(s: Severity)
    ensures Cn(CardClassArgs(s)) == LeftBorder + " " + SeverityBorder(s)
  {
    var args := CardClassArgs(s);
    var border := SeverityBorder(s);
    assert KeptClasses(args) == [LeftBorder, border] by {
      var k := if s == Critical then 0 else if s == Warning then 1 else if s == Info then 2 else 3;
      KeptSingle(args[1..], k, border);
    }
    JoinTwo(LeftBorder, border);

  }
}
