/** The layout-style catalog of the floating layout-style selector. Each
    entry's value is the glyph shown beside its caption. */
module LayoutStyleSelector {
  import opened Catalog

  const LayoutStyles: seq<Entry<string>> := [
    Entry("standard", "Padrão", "⊙"),
    Entry("rect", "Retangular", "□"),
    Entry("diamond", "Diamante", "◇")
  ]

  function Ids(): (r: seq<string>)
    ensures |r| == |LayoutStyles|
    ensures forall k :: 0 <= k < |r| ==> r[k] == LayoutStyles[k].id
  {
    seq(|LayoutStyles|, k requires 0 <= k < |LayoutStyles| => LayoutStyles[k].id)
  }

  /** Exactly these three styles, with distinct ids. */
  lemma CatalogWellFormed()
    ensures Ids() == ["standard", "rect", "diamond"]
    ensures DistinctIds(LayoutStyles)
  {
  }

  /** The style shown as current: the matching entry, or "standard". */
  function CurrentStyle(id: string): (e: Entry<string>)
    ensures e in LayoutStyles
    ensures id in Ids() ==> e.id == id
    ensures id !in Ids() ==> e.id == "standard"
  {
    FindOrFirst(LayoutStyles, id)
  }

  /** Picking a style from the menu makes it the current one and closes the menu. */
  lemma ChoosingSelects(k: nat)
    requires k < |LayoutStyles|
    ensures CurrentStyle(Choose(LayoutStyles, k).reported) == LayoutStyles[k]
    ensures !Choose(LayoutStyles, k).menuOpen
  {
    CatalogWellFormed();
  }
}
