/**
 * The order status lifecycle: the eight named statuses, the fixed table of
 * transitions between them, the status catalogue and the badge class shown
 * for each status.
 *
 * Orders keep their status as a plain string, so a stored status may be any
 * string at all. Status enumerates the eight names of the transition table;
 * Unknown(name) stands for every other string. Parse and Name convert
 * between the two views.
 */
module Statuses {

  datatype Status =
    | Pending | Processing | Shipped | Delivered
    | Completed | Cancelled | Returned | Refunded
    | Unknown(name: string)
  {
    /** One of the eight statuses of the transition table. */
    predicate IsKnown() { !Unknown? }
  }

  /** The eight status names, in the order the status catalogue lists them. */
  const StatusNames: seq<string> :=
    ["Pending", "Processing", "Shipped", "Delivered", "Completed", "Cancelled", "Returned", "Refunded"]

  /** The string a status is stored as. */
  function Name(s: Status): string {
    match s
    case Pending => "Pending"
    case Processing => "Processing"
    case Shipped => "Shipped"
    case Delivered => "Delivered"
    case Completed => "Completed"
    case Cancelled => "Cancelled"
    case Returned => "Returned"
    case Refunded => "Refunded"
    case Unknown(n) => n
  }

  /** A status some string denotes: Unknown never carries one of the eight names. */
  predicate Canonical(s: Status) {
    s.Unknown? ==> s.name !in StatusNames
  }

  /** The status a stored string denotes. */
  function Parse(name: string): (s: Status)
    ensures Name(s) == name
    ensures Canonical(s)
    ensures s.IsKnown() <==> name in StatusNames
  {
    if name == "Pending" then Pending
    else if name == "Processing" then Processing
    else if name == "Shipped" then Shipped
    else if name == "Delivered" then Delivered
    else if name == "Completed" then Completed
    else if name == "Cancelled" then Cancelled
    else if name == "Returned" then Returned
    else if name == "Refunded" then Refunded
    else Unknown(name)
  }

  /** Parse inverts Name on every status a string can denote. */
  lemma ParseName(s: Status)
    requires Canonical(s)
    ensures Parse(Name(s)) == s
  {
  }

  /** The transition table in the source's own terms: status name to the names it may move to. */
  const TransitionTable: map<string, seq<string>> := map[
    "Pending" := ["Processing", "Cancelled"],
    "Processing" := ["Shipped", "Cancelled"],
    "Shipped" := ["Delivered", "Returned"],
    "Delivered" := ["Completed", "Returned"],
    "Cancelled" := [],
    "Completed" := [],
    "Returned" := ["Refunded"],
    "Refunded" := []
  ]

  /** Position along the lifecycle; every transition strictly increases it. */
  function Rank(s: Status): nat {
    match s
    case Pending => 0
    case Processing => 1
    case Shipped => 2
    case Cancelled => 2
    case Delivered => 3
    case Completed => 4
    case Returned => 4
    case Refunded => 5
    case Unknown(_) => 0
  }

  const MaxRank: nat := 5

  /** The statuses with no outgoing transition. */
  predicate IsTerminal(s: Status) {
    s == Completed || s == Cancelled || s == Refunded
  }

  /** An edge of the lifecycle graph. */
  function CanTransition(from: Status, to: Status): (allowed: bool)
    ensures allowed ==> from.IsKnown() && to.IsKnown()
    ensures allowed ==> from != to
    ensures allowed ==> !IsTerminal(from)
    ensures allowed ==> Rank(from) < Rank(to) <= MaxRank
  {
    match from
    case Pending => to == Processing || to == Cancelled
    case Processing => to == Shipped || to == Cancelled
    case Shipped => to == Delivered || to == Returned
    case Delivered => to == Completed || to == Returned
    case Returned => to == Refunded
    case Cancelled => false
    case Completed => false
    case Refunded => false
    case Unknown(_) => false
  }

  /**
   * The enumerated guard agrees with the string table on every pair of
   * strings: a move is allowed exactly when the current name is a key of the
   * table and the requested name is listed under it.
   */
  lemma CanTransitionMatchesTable(current: string, requested: string)
    ensures CanTransition(Parse(current), Parse(requested))
            <==> current in TransitionTable && requested in TransitionTable[current]
  {
  }

  /** No status may move to itself. */
  lemma NoSelfLoops(s: Status)
    ensures !CanTransition(s, s)
  {
  }

  /**
   * Among the eight statuses, the terminal ones are exactly those with no
   * outgoing transition; an unknown status has none either.
   */
  lemma TerminalIffNoMoves(s: Status)
    ensures s.IsKnown() ==> (IsTerminal(s) <==> forall t :: !CanTransition(s, t))
    ensures s.Unknown? ==> forall t :: !CanTransition(s, t)
  {
    if s.IsKnown() && !IsTerminal(s) {
      var t := match s
        case Pending => Processing
        case Processing => Shipped
        case Shipped => Delivered
        case Delivered => Completed
        case _ => Refunded;
      assert CanTransition(s, t);
    }
  }

  /** The status catalogue: the eight names, in display order. */
  function AllStatuses(): (names: seq<string>)
    ensures |names| == 8
    ensures forall i, j :: 0 <= i < j < |names| ==> names[i] != names[j]
    ensures forall n :: n in names <==> n in TransitionTable
    ensures forall n, t :: n in TransitionTable && t in TransitionTable[n] ==> t in names
    ensures forall s :: Canonical(s) ==> (s.IsKnown() <==> Name(s) in names)
  {
    StatusNames
  }

  /** A sequence of statuses each of which may move to the next. */
  predicate IsPath(ss: seq<Status>) {
    forall i :: 0 <= i < |ss| - 1 ==> CanTransition(ss[i], ss[i + 1])
  }

  /** Along a path the rank grows by at least one per step. */
  lemma {:induction false} PathRankGrows(ss: seq<Status>)
    requires IsPath(ss) && |ss| > 0
    ensures Rank(ss[0]) + |ss| - 1 <= Rank(ss[|ss| - 1])
  {
    if |ss| > 1 {
      var rest := ss[1..];
      assert IsPath(rest) by {
        forall i | 0 <= i < |rest| - 1
          ensures CanTransition(rest[i], rest[i + 1])
        {
          assert rest[i] == ss[i + 1] && rest[i + 1] == ss[i + 2];
        }
      }
      PathRankGrows(rest);
      assert CanTransition(ss[0], ss[1]);
    }
  }

  /**
   * The lifecycle has no cycles: a path never revisits a status, and no
   * path is longer than six statuses.
   */
  lemma PathIsAcyclic(ss: seq<Status>)
    requires IsPath(ss)
    ensures |ss| <= MaxRank + 1
    ensures forall i, j :: 0 <= i < j < |ss| ==> ss[i] != ss[j]
  {
    if |ss| > 1 {
      PathRankGrows(ss);
      assert CanTransition(ss[|ss| - 2], ss[|ss| - 1]);
    }
    forall i, j | 0 <= i < j < |ss|
      ensures ss[i] != ss[j]
    {
      var sub := ss[i..j + 1];
      assert IsPath(sub) by {
        forall k | 0 <= k < |sub| - 1
          ensures CanTransition(sub[k], sub[k + 1])
        {
          assert sub[k] == ss[i + k] && sub[k + 1] == ss[i + k + 1];
        }
      }
      PathRankGrows(sub);
    }
  }

  /** The longest path: six statuses, from Pending to Refunded. */
  lemma LongestPath()
    ensures IsPath([Pending, Processing, Shipped, Delivered, Returned, Refunded])
  {
  }

  const DefaultBadge: string := "badge badge-light"

  /** The badge class shown for a status. */
  function BadgeClass(s: Status): (badge: string)
    ensures badge == DefaultBadge <==> s.Unknown?
  {
    match s
    case Pending => "badge badge-warning"
    case Processing => "badge badge-info"
    case Shipped => "badge badge-primary"
    case Delivered => "badge badge-success"
    case Completed => "badge badge-success"
    case Cancelled => "badge badge-danger"
    case Returned => "badge badge-secondary"
    case Refunded => "badge badge-dark"
    case Unknown(_) => DefaultBadge
  }

  /** The badge switch in the source's own terms: status name to class. */
  const BadgeTable: map<string, string> := map[
    "Pending" := "badge badge-warning",
    "Processing" := "badge badge-info",
    "Shipped" := "badge badge-primary",
    "Delivered" := "badge badge-success",
    "Completed" := "badge badge-success",
    "Cancelled" := "badge badge-danger",
    "Returned" := "badge badge-secondary",
    "Refunded" := "badge badge-dark"
  ]

  /**
   * The badge mapping is total: each of the eight names gets its listed
   * class and every other string the light badge.
   */
  lemma BadgeClassMatchesSwitch(name: string)
    ensures BadgeClass(Parse(name)) == if name in BadgeTable then BadgeTable[name] else DefaultBadge
  {
  }

  /**
   * Two different statuses share a badge only when both are unknown or they
   * are Delivered and Completed.
   */
  lemma BadgeClassesDistinct(a: Status, b: Status)
    requires a != b && BadgeClass(a) == BadgeClass(b)
    ensures || (a.Unknown? && b.Unknown?)
            || (a == Delivered && b == Completed)
            || (a == Completed && b == Delivered)
  {
  }
}
