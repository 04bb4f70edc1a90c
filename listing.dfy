/** The template list of both generations of the app: the search and favourites filter, and the
    grouping of what passes it under the fixed group order, empty groups skipped. */
module Listing {
  import opened Seqs
  import opened TemplateShape
  import opened Registry

  /** The lower-cased text a query is matched against: title, description, group and the tags joined by
      spaces, put through `lower`, which stands for `String.prototype.toLowerCase`. */
  function Haystack(t: Template, lower: string -> string): string {
    lower(t.title + " " + t.desc + " " + t.group + " " + Join(t.tags, " "))
  }

  /** `hay.includes(q)`, scanning from the left. */
  function Contains(hay: string, q: string): bool
    decreases |hay|
  {
    if |q| <= |hay| && hay[..|q|] == q then true
    else if |hay| == 0 then false
    else Contains(hay[1..], q)
  }

  predicate OccursAt(hay: string, q: string, i: int) {
    0 <= i && i + |q| <= |hay| && hay[i..i + |q|] == q
  }

  /** A slice of the tail is the slice of the whole one position further. */
  lemma TailSlice(s: string, i: int, n: int)
    requires 1 <= i && 0 <= n && i + n <= |s|
    ensures s[1..][i - 1..i - 1 + n] == s[i..i + n]
  {
    assert forall j :: i <= j < i + n ==> s[1..][j - 1] == s[j];
  }

  /** The scan finds the query exactly when it occurs at some position. */
  lemma {:induction false} ContainsSpec(hay: string, q: string)
    ensures Contains(hay, q) <==> exists i :: OccursAt(hay, q, i)
  {
    if |q| <= |hay| && hay[..|q|] == q {
      assert OccursAt(hay, q, 0);
    } else if |hay| == 0 {
      assert forall i :: !OccursAt(hay, q, i);
    } else {
      ContainsSpec(hay[1..], q);
      forall j | OccursAt(hay[1..], q, j) ensures OccursAt(hay, q, j + 1) {
        TailSlice(hay, j + 1, |q|);
      }
      forall i | OccursAt(hay, q, i) ensures i >= 1 && OccursAt(hay[1..], q, i - 1) {
        TailSlice(hay, i, |q|);
      }
    }
  }

  /** The filter of `renderList`: the query (already lower-cased) is empty or found in the haystack,
      and, when only favourites are shown, the id is a favourite. */
  predicate Listed(t: Template, q: string, favOnly: bool, favs: set<string>, lower: string -> string) {
    (q == "" || Contains(Haystack(t, lower), q)) && (!favOnly || t.id in favs)
  }

  function ListedBy(q: string, favOnly: bool, favs: set<string>, lower: string -> string): Template -> bool {
    (t: Template) => Listed(t, q, favOnly, favs, lower)
  }

  function InGroup(g: string): Template -> bool {
    (t: Template) => t.group == g
  }

  /** One heading of the list with its cards. */
  datatype Section = Section(group: string, items: seq<Template>)

  /** The sections for the groups `groups`, in that order, each holding the listed templates of that
      group in catalogue order, a group with none being skipped. */
  function SectionsOf(items: seq<Template>, groups: seq<string>): seq<Section> {
    if |groups| == 0 then []
    else
      var inG := Filter(items, InGroup(groups[0]));
      (if |inG| == 0 then [] else [Section(groups[0], inG)]) + SectionsOf(items, groups[1..])
  }

  /** What `renderList` shows for the catalogue `templates`. */
  function Sections(templates: seq<Template>, q: string, favOnly: bool, favs: set<string>, lower: string -> string): seq<Section> {
    SectionsOf(Filter(templates, ListedBy(q, favOnly, favs, lower)), GROUP_ORDER)
  }

  function IndexOf(groups: seq<string>, g: string): int {
    if |groups| == 0 then -1 else if groups[0] == g then 0
    else var k := IndexOf(groups[1..], g); if k < 0 then -1 else k + 1
  }

  /** Every section is non-empty, holds only templates of its own group taken from `items`, and the
      section groups come in the order of `groups` (strictly increasing positions in it). */
  lemma {:induction false} SectionsSound(items: seq<Template>, groups: seq<string>)
    requires forall i, j :: 0 <= i < j < |groups| ==> groups[i] != groups[j]
    ensures forall k :: 0 <= k < |SectionsOf(items, groups)| ==>
      var s := SectionsOf(items, groups)[k];
      && |s.items| > 0 && s.group in groups
      && (forall j :: 0 <= j < |s.items| ==> s.items[j].group == s.group && s.items[j] in items)
    ensures forall k, l :: 0 <= k < l < |SectionsOf(items, groups)| ==>
      IndexOf(groups, SectionsOf(items, groups)[k].group) < IndexOf(groups, SectionsOf(items, groups)[l].group)
  {
    if |groups| > 0 {
      SectionsSound(items, groups[1..]);
      IndexOfSpec(groups);
      var inG := Filter(items, InGroup(groups[0]));
      var head := if |inG| == 0 then [] else [Section(groups[0], inG)];
      var rest := SectionsOf(items, groups[1..]);
      assert SectionsOf(items, groups) == head + rest;
      forall k | 0 <= k < |rest|
        ensures IndexOf(groups, rest[k].group) == IndexOf(groups[1..], rest[k].group) + 1
        ensures IndexOf(groups[1..], rest[k].group) >= 0
      {
        IndexOfSpec(groups[1..]);
        var g := rest[k].group;
        assert g in groups[1..];
        var p :| 0 <= p < |groups[1..]| && groups[1..][p] == g;
        assert groups[p + 1] == g;
        assert g != groups[0];
      }
    }
  }

  lemma {:induction false} IndexOfSpec(groups: seq<string>)
    ensures forall g :: g in groups ==> 0 <= IndexOf(groups, g) < |groups| && groups[IndexOf(groups, g)] == g
  {
    if |groups| > 0 {
      IndexOfSpec(groups[1..]);
    }
  }

  /** Every template of `items` whose group is one of `groups` appears in the section of its group. */
  lemma {:induction false} SectionsComplete(items: seq<Template>, groups: seq<string>, t: Template)
    requires t in items && t.group in groups
    ensures exists k :: 0 <= k < |SectionsOf(items, groups)| &&
                        SectionsOf(items, groups)[k].group == t.group && t in SectionsOf(items, groups)[k].items
  {
    var inG := Filter(items, InGroup(groups[0]));
    var head := if |inG| == 0 then [] else [Section(groups[0], inG)];
    var rest := SectionsOf(items, groups[1..]);
    assert SectionsOf(items, groups) == head + rest;
    if groups[0] == t.group {
      var i :| 0 <= i < |items| && items[i] == t;
      assert InGroup(groups[0])(items[i]);
      assert t in inG;
      assert SectionsOf(items, groups)[0] == Section(t.group, inG);
    } else {
      SectionsComplete(items, groups[1..], t);
      var k :| 0 <= k < |rest| && rest[k].group == t.group && t in rest[k].items;
      assert SectionsOf(items, groups)[|head| + k] == rest[k];
    }
  }

  /** A template is listed exactly when it passes the filter: it then appears under its group, and every
      template that appears passes the filter. */
  lemma ListedIff(templates: seq<Template>, q: string, favOnly: bool, favs: set<string>, lower: string -> string, t: Template)
    requires t in templates && t.group in GROUP_ORDER
    ensures (exists k :: 0 <= k < |Sections(templates, q, favOnly, favs, lower)| &&
              t in Sections(templates, q, favOnly, favs, lower)[k].items)
            <==> Listed(t, q, favOnly, favs, lower)
  {
    var items := Filter(templates, ListedBy(q, favOnly, favs, lower));
    var sections := Sections(templates, q, favOnly, favs, lower);
    SectionsSound(items, GROUP_ORDER);
    if Listed(t, q, favOnly, favs, lower) {
      var i :| 0 <= i < |templates| && templates[i] == t;
      assert ListedBy(q, favOnly, favs, lower)(templates[i]);
      SectionsComplete(items, GROUP_ORDER, t);
    }
  }

  /** Within a group the catalogue order is kept: the cards of a group for a catalogue `a + b` are
      those for `a` followed by those for `b`. */
  lemma GroupKeepsOrder(a: seq<Template>, b: seq<Template>, g: string)
    ensures Filter(a + b, InGroup(g)) == Filter(a, InGroup(g)) + Filter(b, InGroup(g))
  {
    FilterConcat(a, b, InGroup(g));
  }

  /** Appending one template appends it to the cards of its own group only. */
  lemma FilterGroupSnoc(items: seq<Template>, t: Template, g: string)
    ensures Filter(items + [t], InGroup(g)) == Filter(items, InGroup(g)) + (if t.group == g then [t] else [])
  {
    FilterConcat(items, [t], InGroup(g));
    assert [t][1..] == [];
  }

  /** The bucketing loop of `renderList`: `grouped[t.group].push(t)` for each listed template. */
  method GroupByCategory(items: seq<Template>) returns (grouped: map<string, seq<Template>>)
    ensures forall g :: g in grouped ==> grouped[g] == Filter(items, InGroup(g)) && |grouped[g]| > 0
    ensures forall g :: g !in grouped ==> Filter(items, InGroup(g)) == []
  {
    grouped := map[];
    var i := 0;
    while i < |items|
      invariant 0 <= i <= |items|
      invariant forall g :: g in grouped ==> grouped[g] == Filter(items[..i], InGroup(g)) && |grouped[g]| > 0
      invariant forall g :: g !in grouped ==> Filter(items[..i], InGroup(g)) == []
    {
      var t := items[i];
      assert items[..i + 1] == items[..i] + [t];
      var prev := grouped;
      grouped := grouped[t.group := (if t.group in grouped then grouped[t.group] else []) + [t]];
      forall g | g in grouped ensures grouped[g] == Filter(items[..i + 1], InGroup(g)) && |grouped[g]| > 0 {
        FilterGroupSnoc(items[..i], t, g);
        if g != t.group {
          assert grouped[g] == prev[g];
        }
      }
      forall g | g !in grouped ensures Filter(items[..i + 1], InGroup(g)) == [] {
        FilterGroupSnoc(items[..i], t, g);
      }
      i := i + 1;
    }
    assert items[..i] == items;
  }

  /** `renderList` as it runs: filter the catalogue, bucket the listed templates by group in one pass,
      then emit the non-empty buckets in the group order. */
  method RenderSections(templates: seq<Template>, q: string, favOnly: bool, favs: set<string>, lower: string -> string) returns (sections: seq<Section>)
    ensures sections == Sections(templates, q, favOnly, favs, lower)
  {
    var items := Filter(templates, ListedBy(q, favOnly, favs, lower));
    var grouped := GroupByCategory(items);
    sections := [];
    var k := 0;
    assert GROUP_ORDER[0..] == GROUP_ORDER;
    while k < |GROUP_ORDER|
      invariant 0 <= k <= |GROUP_ORDER|
      invariant sections + SectionsOf(items, GROUP_ORDER[k..]) == SectionsOf(items, GROUP_ORDER)
    {
      var group := GROUP_ORDER[k];
      assert GROUP_ORDER[k..][0] == group && GROUP_ORDER[k..][1..] == GROUP_ORDER[k + 1..];
      if group in grouped && |grouped[group]| != 0 {
        sections := sections + [Section(group, grouped[group])];
      }
      k := k + 1;
    }
  }
}
