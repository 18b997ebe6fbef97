/** The market-trends admin page: a local copy of the trend record being
    edited, the text box for a new area, the two list edits and the save
    hand-off to the store. */
module TrendsPage {
  import opened Optional
  import Text
  import Seqs
  import MarketTrends
  import AdminStore

  datatype TrendsForm = TrendsForm(data: MarketTrends.Trend, newArea: string)

  /** The page opens on the store's current record and an empty text box. */
  function Open(t: MarketTrends.Trend): TrendsForm {
    TrendsForm(t, "")
  }

  predicate NoDuplicates(xs: seq<string>) {
    forall i, j :: 0 <= i < j < |xs| ==> xs[i] != xs[j]
  }

  function IsNot(area: string): string -> bool {
    (a: string) => a != area
  }

  /** `addArea()`: the trimmed text is appended, and the text box cleared,
      when it is non-empty and not already listed; otherwise nothing
      changes. Only the area list and the text box are touched. */
  function AddArea(f: TrendsForm): (r: TrendsForm)
    ensures r.data == f.data.(trendingAreas := r.data.trendingAreas)
    ensures Text.Trim(f.newArea) != "" && Text.Trim(f.newArea) !in f.data.trendingAreas ==>
      r.data.trendingAreas == f.data.trendingAreas + [Text.Trim(f.newArea)] && r.newArea == ""
    ensures Text.Trim(f.newArea) == "" || Text.Trim(f.newArea) in f.data.trendingAreas ==> r == f
  {
    var a := Text.Trim(f.newArea);
    if a != "" && a !in f.data.trendingAreas then
      TrendsForm(f.data.(trendingAreas := f.data.trendingAreas + [a]), "")
    else f
  }

  /** Adding grows the list by at most one entry, keeps every old entry in
      place, and adds only a non-empty entry that trimming leaves alone. */
  lemma AddAreaGrows(f: TrendsForm)
    ensures |f.data.trendingAreas| <= |AddArea(f).data.trendingAreas| <= |f.data.trendingAreas| + 1
    ensures AddArea(f).data.trendingAreas[..|f.data.trendingAreas|] == f.data.trendingAreas
    ensures |AddArea(f).data.trendingAreas| > |f.data.trendingAreas| ==>
      var added := AddArea(f).data.trendingAreas[|f.data.trendingAreas|];
      added != "" && Text.Trim(added) == added
  {
    var xs := f.data.trendingAreas;
    var a := Text.Trim(f.newArea);
    if a != "" && a !in xs {
      var ys := AddArea(f).data.trendingAreas;
      assert ys == xs + [a];
      assert ys[..|xs|] == xs && ys[|xs|] == a;
      Text.TrimIdempotent(f.newArea);
    } else {
      assert AddArea(f) == f;
    }
  }

  /** Appending an entry not yet listed keeps a list duplicate-free. */
  lemma AppendFreshNoDuplicates(xs: seq<string>, a: string)
    requires NoDuplicates(xs) && a !in xs
    ensures NoDuplicates(xs + [a])
  {
    var ys := xs + [a];
    forall i, j | 0 <= i < j < |ys| ensures ys[i] != ys[j] {
      if j == |xs| {
        assert ys[i] == xs[i];
      } else {
        assert ys[i] == xs[i] && ys[j] == xs[j];
      }
    }
  }

  /** Adding never introduces a duplicate. */
  lemma AddAreaKeepsNoDuplicates(f: TrendsForm)
    requires NoDuplicates(f.data.trendingAreas)
    ensures NoDuplicates(AddArea(f).data.trendingAreas)
  {
    var a := Text.Trim(f.newArea);
    if a != "" && a !in f.data.trendingAreas {
      AppendFreshNoDuplicates(f.data.trendingAreas, a);
    }
  }

  /** `removeArea(area)`: every occurrence of `area` is dropped; the other
      entries stay in order; the text box is untouched. */
  function RemoveArea(f: TrendsForm, area: string): (r: TrendsForm)
    ensures area !in r.data.trendingAreas
    ensures forall a | a in f.data.trendingAreas && a != area :: a in r.data.trendingAreas
    ensures forall i :: 0 <= i < |r.data.trendingAreas| ==> r.data.trendingAreas[i] in f.data.trendingAreas
    ensures r.data == f.data.(trendingAreas := r.data.trendingAreas) && r.newArea == f.newArea
  {
    f.(data := f.data.(trendingAreas := Seqs.Filter(f.data.trendingAreas, IsNot(area))))
  }

  /** Removing twice is removing once; removing an area that is not listed
      changes nothing; removal keeps the list duplicate-free. */
  lemma RemoveAreaLaws(f: TrendsForm, area: string)
    ensures RemoveArea(RemoveArea(f, area), area) == RemoveArea(f, area)
    ensures area !in f.data.trendingAreas ==> RemoveArea(f, area) == f
    ensures NoDuplicates(f.data.trendingAreas) ==> NoDuplicates(RemoveArea(f, area).data.trendingAreas)
  {
    Seqs.FilterIdempotent(f.data.trendingAreas, IsNot(area));
    if area !in f.data.trendingAreas {
      Seqs.FilterKeepsAll(f.data.trendingAreas, IsNot(area));
    }
    if NoDuplicates(f.data.trendingAreas) {
      FilterKeepsNoDuplicates(f.data.trendingAreas, IsNot(area));
    }
  }

  /** Removal keeps the surviving entries in their order, duplicates
      included: removing from a list split in two is removing from each part
      and joining the results. */
  lemma RemoveAreaKeepsOrder(f: TrendsForm, area: string, xs: seq<string>, ys: seq<string>)
    requires f.data.trendingAreas == xs + ys
    ensures RemoveArea(f, area).data.trendingAreas ==
      RemoveArea(f.(data := f.data.(trendingAreas := xs)), area).data.trendingAreas +
      RemoveArea(f.(data := f.data.(trendingAreas := ys)), area).data.trendingAreas
  {
    Seqs.FilterAppend(xs, ys, IsNot(area));
  }

  lemma {:induction false} FilterKeepsNoDuplicates(xs: seq<string>, p: string -> bool)
    requires NoDuplicates(xs)
    ensures NoDuplicates(Seqs.Filter(xs, p))
  {
    if |xs| > 0 {
      assert NoDuplicates(xs[1..]) by {
        forall i, j | 0 <= i < j < |xs[1..]| ensures xs[1..][i] != xs[1..][j] {
          assert xs[1..][i] == xs[i + 1] && xs[1..][j] == xs[j + 1];
        }
      }
      FilterKeepsNoDuplicates(xs[1..], p);
      var rest := Seqs.Filter(xs[1..], p);
      if p(xs[0]) {
        assert xs[0] !in xs[1..];
        var r := [xs[0]] + rest;
        forall i, j | 0 <= i < j < |r| ensures r[i] != r[j] {
          assert r[j] == rest[j - 1];
          if i > 0 {
            assert r[i] == rest[i - 1];
          }
        }
      }
    }
  }

  /** Adding a new area and then removing it gives back the list the page
      started with. */
  lemma AddThenRemove(f: TrendsForm)
    requires Text.Trim(f.newArea) != "" && Text.Trim(f.newArea) !in f.data.trendingAreas
    ensures RemoveArea(AddArea(f), Text.Trim(f.newArea)).data == f.data
  {
    var a := Text.Trim(f.newArea);
    var xs := f.data.trendingAreas;
    Seqs.FilterAppend(xs, [a], IsNot(a));
    Seqs.FilterKeepsAll(xs, IsNot(a));
    assert Seqs.Filter([a], IsNot(a)) == [];
    assert xs + [] == xs;
  }

  /** `handleSave()`: the whole form record goes to `updateTrends`, so the
      stored record becomes the form's, stamped with the current month. */
  function HandleSave(s: AdminStore.State, f: TrendsForm, stamp: string): (r: AdminStore.State)
    ensures r.trends == f.data.(lastUpdated := stamp)
    ensures r.(trends := s.trends) == s
  {
    MarketTrends.MergeLaws(f.data, s.trends, MarketTrends.NoChanges);
    AdminStore.UpdateTrends(s, MarketTrends.AsPatch(f.data), stamp)
  }

  /** Opening the page and saving at once only restamps the record. */
  lemma SaveUnedited(s: AdminStore.State, stamp: string)
    ensures HandleSave(s, Open(s.trends), stamp) == s.(trends := s.trends.(lastUpdated := stamp))
  {
  }

  /** The seeded list of areas has five entries and no duplicates. */
  lemma SeededAreas()
    ensures |MarketTrends.Fixture.trendingAreas| == 5
    ensures NoDuplicates(MarketTrends.Fixture.trendingAreas)
  {
  }
}
