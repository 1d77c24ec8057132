/**
 * `generateLinks`: every selected source value is looked up in the table of source
 * groups, and each one found yields a link of the chosen type, in selection order.
 * The table itself is a parameter: it is the abstract list of (value, label) groups
 * the page imports.
 */
module Generate {
  import opened Wrappers
  import opened Form
  import opened Builders
  import Schema

  /** One entry of a source group. */
  datatype Source = Source(value: string, labelText: string)

  datatype SourceGroup = SourceGroup(labelText: string, sources: seq<Source>)

  /** `GeneratedLink`. */
  datatype GeneratedLink = GeneratedLink(source: string, sourceLabel: string, url: string)

  predicate HasSource(g: SourceGroup, v: string) {
    exists j :: 0 <= j < |g.sources| && g.sources[j].value == v
  }

  /** Position `j` holds the first entry with value `v`. */
  predicate FirstEntry(sources: seq<Source>, j: int, v: string) {
    0 <= j < |sources| && sources[j].value == v && forall k :: 0 <= k < j ==> sources[k].value != v
  }

  /** Position `i` holds the first group with an entry of value `v`. */
  predicate FirstGroup(groups: seq<SourceGroup>, i: int, v: string) {
    0 <= i < |groups| && HasSource(groups[i], v) && forall k :: 0 <= k < i ==> !HasSource(groups[k], v)
  }

  /** `sources.find(s => s.value === v)`: the first entry with that value. */
  function FindInGroup(sources: seq<Source>, v: string): (r: Option<Source>)
    ensures r.None? <==> forall j :: 0 <= j < |sources| ==> sources[j].value != v
    ensures r.Some? ==> r.value.value == v && r.value in sources
  {
    if sources == [] then None
    else if sources[0].value == v then Some(sources[0])
    else
      var r := FindInGroup(sources[1..], v);
      assert forall j :: 1 <= j < |sources| ==> sources[j] == sources[1..][j - 1];
      r
  }

  /** What `find` returns is the first entry with the value, not merely some entry with it. */
  lemma {:induction false} FindInGroupFirst(sources: seq<Source>, v: string, j: int)
    requires FirstEntry(sources, j, v)
    ensures FindInGroup(sources, v) == Some(sources[j])
    decreases |sources|
  {
    if sources[0].value != v {
      var tail := sources[1..];
      assert FirstEntry(tail, j - 1, v) by {
        forall k | 0 <= k < j - 1 ensures tail[k].value != v {
          assert tail[k] == sources[k + 1];
        }
        assert tail[j - 1] == sources[j];
      }
      FindInGroupFirst(tail, v, j - 1);
    }
  }

  /** `groups.find(g => g.sources.some(s => s.value === v))`: the first group holding the value. */
  function FindGroup(groups: seq<SourceGroup>, v: string): (r: Option<SourceGroup>)
    ensures r.None? <==> forall i :: 0 <= i < |groups| ==> !HasSource(groups[i], v)
    ensures r.Some? ==> HasSource(r.value, v) && r.value in groups
  {
    if groups == [] then None
    else if HasSource(groups[0], v) then Some(groups[0])
    else
      var r := FindGroup(groups[1..], v);
      assert forall i :: 1 <= i < |groups| ==> groups[i] == groups[1..][i - 1];
      r
  }

  /** What `find` returns is the first group holding the value. */
  lemma {:induction false} FindGroupFirst(groups: seq<SourceGroup>, v: string, i: int)
    requires FirstGroup(groups, i, v)
    ensures FindGroup(groups, v) == Some(groups[i])
    decreases |groups|
  {
    if !HasSource(groups[0], v) {
      var tail := groups[1..];
      assert FirstGroup(tail, i - 1, v) by {
        forall k | 0 <= k < i - 1 ensures !HasSource(tail[k], v) {
          assert tail[k] == groups[k + 1];
        }
        assert tail[i - 1] == groups[i];
      }
      FindGroupFirst(tail, v, i - 1);
    }
  }

  /** `sourceGroup?.sources.find(...)`: the entry for a value, through the first group that holds it. */
  function LookupSource(groups: seq<SourceGroup>, v: string): (r: Option<Source>)
    ensures r.Some? ==> r.value.value == v
  {
    match FindGroup(groups, v)
    case Some(g) => FindInGroup(g.sources, v)
    case None => None
  }

  /**
   * A value is found exactly when some group holds it, and what is found is an entry
   * of the table with that very value.
   */
  lemma LookupSourceFound(groups: seq<SourceGroup>, v: string)
    ensures LookupSource(groups, v).Some? <==> exists i :: 0 <= i < |groups| && HasSource(groups[i], v)
    ensures LookupSource(groups, v).Some? ==>
      LookupSource(groups, v).value.value == v &&
      exists i :: 0 <= i < |groups| && LookupSource(groups, v).value in groups[i].sources
  {
    var g := FindGroup(groups, v);
    if g.Some? {
      var i :| 0 <= i < |groups| && groups[i] == g.value;
      var j :| 0 <= j < |g.value.sources| && g.value.sources[j].value == v;
      assert FindInGroup(g.value.sources, v).Some?;
    }
  }

  /**
   * When a value appears more than once, the entry found (and so the label shown) is the
   * first entry with that value in the first group that holds it.
   */
  lemma LookupSourceFirst(groups: seq<SourceGroup>, v: string, i: int, j: int)
    requires FirstGroup(groups, i, v) && FirstEntry(groups[i].sources, j, v)
    ensures LookupSource(groups, v) == Some(groups[i].sources[j])
  {
    FindGroupFirst(groups, v, i);
    FindInGroupFirst(groups[i].sources, v, j);
  }

  /** The URL for one source, by link type (`""` when no type is chosen, as the switch leaves it). */
  function LinkUrl(f: FormData, source: string): (url: string)
    ensures url == "" <==> f.linkType.None?
  {
    match f.linkType
    case Some(App) => AppLinkUrl(f, source)
    case Some(WebinarBot) => WebinarBotLink(f, source)
    case Some(PartnerBot) => PartnerBotLink(f, source)
    case None => ""
  }

  /** The link one selected value yields, or none when the value is not in the table. */
  function LinkFor(f: FormData, groups: seq<SourceGroup>, v: string): Option<GeneratedLink> {
    match LookupSource(groups, v)
    case Some(s) => Some(GeneratedLink(v, s.labelText, LinkUrl(f, v)))
    case None => None
  }

  /** The links for the selected values `xs`, in order; the specification of `BuildLinks`. */
  function LinksFor(f: FormData, groups: seq<SourceGroup>, xs: seq<string>): seq<GeneratedLink>
  {
    if xs == [] then []
    else
      LinksFor(f, groups, xs[..|xs| - 1]) +
      match LinkFor(f, groups, xs[|xs| - 1])
      case Some(l) => [l]
      case None => []
  }

  /** The selected values that are in the table, in selection order. */
  function FoundSources(groups: seq<SourceGroup>, xs: seq<string>): (r: seq<string>)
    ensures |r| <= |xs|
  {
    if xs == [] then []
    else FoundSources(groups, xs[..|xs| - 1]) + if LookupSource(groups, xs[|xs| - 1]).Some? then [xs[|xs| - 1]] else []
  }

  lemma FoundSourcesSnoc(groups: seq<SourceGroup>, init: seq<string>, v: string)
    ensures FoundSources(groups, init + [v]) ==
            FoundSources(groups, init) + if LookupSource(groups, v).Some? then [v] else []
  {
    assert (init + [v])[..|init|] == init;
  }

  /** The found values are exactly the selected values that are in the table. */
  lemma {:induction false} FoundSourcesMembers(groups: seq<SourceGroup>, xs: seq<string>)
    ensures forall v :: v in FoundSources(groups, xs) <==> v in xs && LookupSource(groups, v).Some?
  {
    if xs != [] {
      var init := xs[..|xs| - 1];
      var v := xs[|xs| - 1];
      FoundSourcesMembers(groups, init);
      assert xs == init + [v];
    }
  }

  function SourcesOf(links: seq<GeneratedLink>): (r: seq<string>)
    ensures |r| == |links| && forall k :: 0 <= k < |links| ==> r[k] == links[k].source
  {
    seq(|links|, k requires 0 <= k < |links| => links[k].source)
  }

  /**
   * The links come out for exactly the found values, in selection order, and each link
   * is the one its value yields: the value itself, its label from the table, and the
   * URL of the chosen link type.
   */
  lemma {:induction false} LinksForFoundSources(f: FormData, groups: seq<SourceGroup>, xs: seq<string>)
    ensures SourcesOf(LinksFor(f, groups, xs)) == FoundSources(groups, xs)
    ensures forall k :: 0 <= k < |LinksFor(f, groups, xs)| ==>
      LinkFor(f, groups, LinksFor(f, groups, xs)[k].source) == Some(LinksFor(f, groups, xs)[k])
  {
    if xs != [] {
      var init := xs[..|xs| - 1];
      LinksForFoundSources(f, groups, init);
      var v := xs[|xs| - 1];
      var links := LinksFor(f, groups, xs);
      var prev := LinksFor(f, groups, init);
      if LinkFor(f, groups, v).Some? {
        assert links == prev + [LinkFor(f, groups, v).value];
        assert FoundSources(groups, xs) == FoundSources(groups, init) + [v];
        assert SourcesOf(links) == SourcesOf(prev) + [v];
      } else {
        assert links == prev;
        assert FoundSources(groups, xs) == FoundSources(groups, init);
      }
    }
  }

  /** Values not in the table are skipped, so there are never more links than selected values. */
  lemma AtMostOneLinkPerSelection(f: FormData, groups: seq<SourceGroup>, xs: seq<string>)
    ensures |LinksFor(f, groups, xs)| <= |xs|
    ensures forall k :: 0 <= k < |LinksFor(f, groups, xs)| ==> LinksFor(f, groups, xs)[k].source in xs
  {
    LinksForFoundSources(f, groups, xs);
    FoundSourcesMembers(groups, xs);
    var links := LinksFor(f, groups, xs);
    assert |SourcesOf(links)| == |links|;
    forall k | 0 <= k < |links| ensures links[k].source in xs {
      assert SourcesOf(links)[k] == links[k].source;
    }
  }

  lemma {:induction false} FoundSourcesKeepsDistinct(groups: seq<SourceGroup>, xs: seq<string>)
    requires Schema.Distinct(xs)
    ensures Schema.Distinct(FoundSources(groups, xs))
  {
    if xs != [] {
      var init := xs[..|xs| - 1];
      var v := xs[|xs| - 1];
      assert Schema.Distinct(init) by {
        forall i, j | 0 <= i < j < |init| ensures init[i] != init[j] {
          assert init[i] == xs[i] && init[j] == xs[j];
        }
      }
      FoundSourcesKeepsDistinct(groups, init);
      FoundSourcesMembers(groups, init);
      var r := FoundSources(groups, xs);
      var prev := FoundSources(groups, init);
      if LookupSource(groups, v).Some? {
        assert v !in init by {
          forall k | 0 <= k < |init| ensures init[k] != v {
            assert init[k] == xs[k];
          }
        }
        assert v !in prev;
        forall i, j | 0 <= i < j < |r| ensures r[i] != r[j] {
          if j == |prev| {
            assert r[i] == prev[i];
          } else {
            assert r[i] == prev[i] && r[j] == prev[j];
          }
        }
      }
    }
  }

  /** A duplicate-free selection gives at most one link per source. */
  lemma OneLinkPerSource(f: FormData, groups: seq<SourceGroup>, xs: seq<string>)
    requires Schema.Distinct(xs)
    ensures Schema.Distinct(SourcesOf(LinksFor(f, groups, xs)))
  {
    LinksForFoundSources(f, groups, xs);
    FoundSourcesKeepsDistinct(groups, xs);
  }

  lemma {:induction false} FoundSourcesAllFound(groups: seq<SourceGroup>, xs: seq<string>)
    requires forall k :: 0 <= k < |xs| ==> LookupSource(groups, xs[k]).Some?
    ensures FoundSources(groups, xs) == xs
  {
    if xs != [] {
      var init := xs[..|xs| - 1];
      var v := xs[|xs| - 1];
      assert xs == init + [v];
      forall k | 0 <= k < |init| ensures LookupSource(groups, init[k]).Some? {
        assert init[k] == xs[k];
      }
      FoundSourcesAllFound(groups, init);
      assert LookupSource(groups, v).Some?;
      FoundSourcesSnoc(groups, init, v);
    }
  }

  /** When every selected value is in the table, the k-th link belongs to the k-th selected value. */
  lemma LinksForAllFound(f: FormData, groups: seq<SourceGroup>, xs: seq<string>)
    requires forall k :: 0 <= k < |xs| ==> LookupSource(groups, xs[k]).Some?
    ensures |LinksFor(f, groups, xs)| == |xs|
    ensures forall k :: 0 <= k < |xs| ==> Some(LinksFor(f, groups, xs)[k]) == LinkFor(f, groups, xs[k])
  {
    LinksForFoundSources(f, groups, xs);
    FoundSourcesAllFound(groups, xs);
    var links := LinksFor(f, groups, xs);
    assert |SourcesOf(links)| == |links|;
    forall k | 0 <= k < |xs| ensures Some(links[k]) == LinkFor(f, groups, xs[k]) {
      assert SourcesOf(links)[k] == links[k].source;
    }
  }

  /**
   * The `forEach` loop of `generateLinks`: the lookup, the switch on the link type and
   * the push, one selected value at a time.
   */
  method BuildLinks(f: FormData, groups: seq<SourceGroup>) returns (links: seq<GeneratedLink>)
    ensures links == LinksFor(f, groups, f.selectedSources)
  {
    links := [];
    var selected := f.selectedSources;
    var i := 0;
    while i < |selected|
      invariant 0 <= i <= |selected|
      invariant links == LinksFor(f, groups, selected[..i])
    {
      var sourceValue := selected[i];
      var sourceGroup := FindGroup(groups, sourceValue);
      var source := if sourceGroup.Some? then FindInGroup(sourceGroup.value.sources, sourceValue) else None;
      assert selected[..i + 1][..i] == selected[..i];
      if source.Some? {
        var url := "";
        match f.linkType {
          case Some(App) =>
            url := GenerateAppLink(f, sourceValue);
          case Some(WebinarBot) =>
            url := WebinarBotLink(f, sourceValue);
          case Some(PartnerBot) =>
            url := PartnerBotLink(f, sourceValue);
          case None =>
        }
        links := links + [GeneratedLink(sourceValue, source.value.labelText, url)];
      }
      i := i + 1;
    }
    assert selected[..i] == selected;
  }
}
