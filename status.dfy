/**
 * Lifecycle codes of a member cluster (pkg/cluster/status.go).
 *
 * The codes are plain integers ordered by how active a cluster is; every
 * lifecycle decision in the handle is a comparison on this order.
 */
module ClusterStatus {

  /** Go's `type Code int`: any integer, of which five are named. */
  type Code = int

  const Disabled: Code := 0
  const Stopped: Code := 1
  const Started: Code := 2
  const Waiting: Code := 3
  const Ready: Code := 4

  /** The printable name of each defined code, indexed by the code. */
  const Names: seq<string> := ["disabled", "stopped", "started", "waiting", "ready"]

  /** One of the five named codes. */
  predicate Defined(c: Code) {
    Disabled <= c <= Ready
  }

  /**
   * `Code.String` as the source writes it: the guard compares with
   * `len(codes) - 1`, so the last name in the table is never used.
   * A negative code makes the source index the table out of range.
   */
  function StringAsWritten(c: Code): (s: string)
    requires c >= 0
    ensures s == "unknown" <==> c >= Ready
  {
    if c < |Names| - 1 then Names[c] else "unknown"
  }

  /** `Code.String` as evidently intended: every named code prints its own name. */
  function String(c: Code): (s: string)
    requires c >= 0
    ensures Defined(c) ==> s == Names[c]
    ensures s == "unknown" <==> !Defined(c)
  {
    if c < |Names| then Names[c] else "unknown"
  }

  /** The codes are totally ordered from the least to the most active. */
  lemma CodeOrder()
    ensures Disabled < Stopped < Started < Waiting < Ready
    ensures |Names| == Ready + 1
  {
  }

  /** As written, the most active code is printed as "unknown". */
  lemma ReadyPrintsUnknown()
    ensures StringAsWritten(Ready) == "unknown"
    ensures String(Ready) == "ready"
  {
  }

  /** The written and the intended String differ on Ready and nowhere else. */
  lemma StringAsWrittenDiffersOnlyOnReady(c: Code)
    requires c >= 0
    ensures StringAsWritten(c) == String(c) <==> c != Ready
  {
  }

  /** The intended String tells the five codes apart. */
  lemma StringInjective(c: Code, d: Code)
    requires Defined(c) && Defined(d)
    requires String(c) == String(d)
    ensures c == d
  {
    assert Names[0][0] == 'd' && Names[1][1] == 't' && Names[2][2] == 'a';
    assert Names[3][0] == 'w' && Names[4][0] == 'r' && Names[1][0] == 's';
  }
}
