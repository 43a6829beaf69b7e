/**
 * Resolving a concrete resource URI against the aggregated resource
 * templates, when no static resource has that URI. Whether a template
 * matches a URI is decided by the template itself (`ResourceTemplate.matches`
 * of the library), which this model takes as a parameter `matches`.
 */
module TemplateMatcher {
  import opened Wrappers
  import opened PyDict
  import opened Catalog

  /**
   * The template at position `p` of the iteration order matches `uri` and
   * has an owning peer.
   */
  predicate Eligible<T>(templates: Dict<T>, owners: map<Key, PeerIndex>, uri: string,
                        matches: (T, string) -> bool, p: nat)
    requires WellFormed(templates) && p < |templates.keys|
  {
    var key := templates.keys[p];
    matches(templates.entries[key], uri) && key in owners
  }

  /** The first eligible position at or after `from`, in iteration order. */
  function FirstMatch<T>(templates: Dict<T>, owners: map<Key, PeerIndex>, uri: string,
                         matches: (T, string) -> bool, from: nat): (r: Option<nat>)
    requires WellFormed(templates) && from <= |templates.keys|
    ensures r.Some? ==> from <= r.value < |templates.keys|
                        && Eligible(templates, owners, uri, matches, r.value)
                        && forall q :: from <= q < r.value ==> !Eligible(templates, owners, uri, matches, q)
    ensures r.None? ==> forall q :: from <= q < |templates.keys| ==> !Eligible(templates, owners, uri, matches, q)
    decreases |templates.keys| - from
  {
    if from == |templates.keys| then None
    else if Eligible(templates, owners, uri, matches, from) then Some(from)
    else FirstMatch(templates, owners, uri, matches, from + 1)
  }

  /**
   * The scan of the aggregated templates: the first template, in iteration
   * order, that matches `uri` and has an owner, with that owner. A matching
   * template without an owner is skipped (the source logs it and goes on).
   */
  method FindTemplate<T>(templates: Dict<T>, owners: map<Key, PeerIndex>, uri: string,
                         matches: (T, string) -> bool)
    returns (found: Option<(Key, PeerIndex)>)
    requires WellFormed(templates)
    ensures match FirstMatch(templates, owners, uri, matches, 0)
            case Some(p) => found == Some((templates.keys[p], owners[templates.keys[p]]))
            case None => found == None
  {
    found := None;
    for p := 0 to |templates.keys|
      invariant found == None
      invariant forall q :: 0 <= q < p ==> !Eligible(templates, owners, uri, matches, q)
    {
      var key := templates.keys[p];
      if matches(templates.entries[key], uri) {
        if key in owners {
          found := Some((key, owners[key]));
          assert Eligible(templates, owners, uri, matches, p);
          FirstMatchIsFirst(templates, owners, uri, matches, p);
          break;
        }
      }
    }
    if found.None? {
      FirstMatchIsFirst(templates, owners, uri, matches, |templates.keys|);
    }
  }

  /** Positions before `p` are not eligible: the scan from 0 ends at `p`, or finds nothing when `p` is the end. */
  lemma FirstMatchIsFirst<T>(templates: Dict<T>, owners: map<Key, PeerIndex>, uri: string,
                             matches: (T, string) -> bool, p: nat)
    requires WellFormed(templates) && p <= |templates.keys|
    requires forall q :: 0 <= q < p ==> !Eligible(templates, owners, uri, matches, q)
    requires p < |templates.keys| ==> Eligible(templates, owners, uri, matches, p)
    ensures FirstMatch(templates, owners, uri, matches, 0) == if p < |templates.keys| then Some(p) else None
  {
    var r := FirstMatch(templates, owners, uri, matches, 0);
    if r.Some? {
      assert r.value >= p;
    }
  }

  /**
   * When every aggregated template has an owner, as after a build, the owner
   * check never skips a template: the scan picks the first template, in
   * iteration order, that matches.
   */
  lemma OwnedTemplatesNeverSkipped<T>(templates: Dict<T>, owners: map<Key, PeerIndex>, uri: string,
                                      matches: (T, string) -> bool)
    requires WellFormed(templates) && templates.entries.Keys <= owners.Keys
    ensures var r := FirstMatch(templates, owners, uri, matches, 0);
      && (r.None? <==> forall q :: 0 <= q < |templates.keys| ==> !matches(templates.entries[templates.keys[q]], uri))
      && (r.Some? ==> matches(templates.entries[templates.keys[r.value]], uri)
                      && forall q :: 0 <= q < r.value ==> !matches(templates.entries[templates.keys[q]], uri))
  {
    forall q | 0 <= q < |templates.keys|
      ensures Eligible(templates, owners, uri, matches, q) == matches(templates.entries[templates.keys[q]], uri)
    {
      assert templates.keys[q] in templates.keys;
    }
  }
}
