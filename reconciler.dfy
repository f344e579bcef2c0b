/** The reconciliation step of `main`: which proxied sites have no monitor yet. */
module Reconciler {
  import opened Services
  import opened Sequences

  /** `missing_sites`: the source URLs, in source order and with their
      repetitions, that are not equal to any existing monitor URL. */
  function Missing(source: seq<Url>, existing: seq<Url>): (r: seq<Url>)
    ensures forall u :: u in r <==> u in source && u !in existing
  {
    if source == [] then []
    else if source[0] in existing then Missing(source[1..], existing)
    else [source[0]] + Missing(source[1..], existing)
  }

  /** The missing list keeps the relative order of the source list. */
  lemma {:induction false} MissingIsSubsequence(source: seq<Url>, existing: seq<Url>)
    ensures IsSubsequence(Missing(source, existing), source)
  {
    if source != [] {
      MissingIsSubsequence(source[1..], existing);
      var rest := Missing(source[1..], existing);
      if source[0] !in existing {
        assert ([source[0]] + rest)[1..] == rest;
      }
    }
  }

  /** No deduplication: a URL with no monitor is missing exactly as often as
      the source lists it, and a URL with a monitor never is. */
  lemma {:induction false} MissingMultiplicity(source: seq<Url>, existing: seq<Url>, u: Url)
    ensures multiset(Missing(source, existing))[u] == if u in existing then 0 else multiset(source)[u]
  {
    if source != [] {
      MissingMultiplicity(source[1..], existing, u);
      assert source == [source[0]] + source[1..];
    }
  }

  /** Nothing is missing exactly when every source URL already has a monitor;
      in particular an empty source list has nothing missing. */
  lemma MissingEmptyIffCovered(source: seq<Url>, existing: seq<Url>)
    ensures Missing(source, existing) == [] <==> forall u :: u in source ==> u in existing
  {
  }

  /** With no existing monitors, every source URL is missing, in order. */
  lemma {:induction false} MissingFromNone(source: seq<Url>)
    ensures Missing(source, []) == source
  {
    if source != [] {
      MissingFromNone(source[1..]);
      assert source == [source[0]] + source[1..];
    }
  }

  /** Filtering a second time against the same monitors removes nothing more. */
  lemma {:induction false} MissingIdempotent(source: seq<Url>, existing: seq<Url>)
    ensures Missing(Missing(source, existing), existing) == Missing(source, existing)
  {
    if source != [] {
      MissingIdempotent(source[1..], existing);
      if source[0] !in existing {
        assert ([source[0]] + Missing(source[1..], existing))[1..] == Missing(source[1..], existing);
      }
    }
  }

  /** An independent characterisation: the missing list is the longest
      subsequence of the source avoiding every existing URL, and the only one
      of that length. */
  lemma {:induction false} MissingIsLongestAvoiding(source: seq<Url>, existing: seq<Url>, t: seq<Url>)
    requires IsSubsequence(t, source)
    requires forall u :: u in t ==> u !in existing
    ensures |t| <= |Missing(source, existing)|
    ensures |t| == |Missing(source, existing)| ==> t == Missing(source, existing)
    decreases |source|
  {
    if t != [] {
      var rest := Missing(source[1..], existing);
      if t[0] == source[0] && IsSubsequence(t[1..], source[1..]) {
        assert t[0] in t;
        MissingIsLongestAvoiding(source[1..], existing, t[1..]);
        assert t == [t[0]] + t[1..];
      } else {
        MissingIsLongestAvoiding(source[1..], existing, t);
        if source[0] !in existing {
          assert |Missing(source, existing)| == |rest| + 1;
        }
      }
    }
  }
}
