/** The rule `AUTH.hasPermission` applies to the `permissions` list of a payload. */
module Permissions {

  const Wildcard: string := "*"
  const AdminView: string := "admin-view"
  const AdminFull: string := "admin-full"

  /** The one hierarchy rule: holding the first permission satisfies a request for the second. */
  const Implications: set<(string, string)> := {(AdminFull, AdminView)}

  /** The three membership tests of hasPermission, in the order they run. */
  function Grants(perms: seq<string>, wanted: string): bool
  {
    if Wildcard in perms then true
    else if wanted == AdminView && AdminFull in perms then true
    else wanted in perms
  }

  /** A single held permission satisfies a request: the wildcard, itself, or by the table. */
  predicate Covers(held: string, wanted: string)
  {
    held == Wildcard || held == wanted || (held, wanted) in Implications
  }

  /** Grants agrees with the table: some held permission covers the request. */
  lemma GrantsByTable(perms: seq<string>, wanted: string)
    ensures Grants(perms, wanted) <==> exists i :: 0 <= i < |perms| && Covers(perms[i], wanted)
  {
  }

  /** `*` grants every permission. */
  lemma WildcardGrantsAll(perms: seq<string>, wanted: string)
    requires Wildcard in perms
    ensures Grants(perms, wanted)
  {
  }

  /** `admin-full` grants `admin-view`, whether or not `admin-view` is held. */
  lemma FullGrantsView(perms: seq<string>)
    requires AdminFull in perms
    ensures Grants(perms, AdminView)
  {
  }

  /** The implication does not run backwards: `admin-view` never grants `admin-full`. */
  lemma ViewDoesNotGrantFull(perms: seq<string>)
    requires Wildcard !in perms && AdminFull !in perms
    ensures !Grants(perms, AdminFull)
  {
  }

  /** Outside the wildcard and the one implication, the answer is exact membership. */
  lemma ExactOtherwise(perms: seq<string>, wanted: string)
    requires Wildcard !in perms
    requires wanted != AdminView || AdminFull !in perms
    ensures Grants(perms, wanted) <==> wanted in perms
  {
  }

  /** Holding more permissions never takes one away. */
  lemma GrantsMonotone(perms: seq<string>, more: seq<string>, wanted: string)
    requires forall q :: q in perms ==> q in more
    requires Grants(perms, wanted)
    ensures Grants(more, wanted)
  {
  }

  /** The coverage relation is transitive, so the table needs no closure. */
  lemma CoversTransitive(a: string, b: string, c: string)
    requires Covers(a, b) && Covers(b, c)
    ensures Covers(a, c)
  {
  }
}
