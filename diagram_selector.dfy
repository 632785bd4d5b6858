/** The diagram-type catalog of the floating diagram selector. Each entry's
    value is the name of the icon it shows. */
module DiagramSelector {
  import opened Catalog

  const DiagramTypes: seq<Entry<string>> := [
    Entry("mind-map", "Mapa mental", "BrainCircuit"),
    Entry("logical-structure", "Estrutura lógica", "GitBranch"),
    Entry("logical-structure-left", "Estrutura lógica (Esq)", "GitBranch rotated 180"),
    Entry("fishbone", "Espinha de peixe", "Fish"),
    Entry("markdown", "Markdown", "FileText"),
    Entry("horizontal", "Horizontal", "ArrowsHorizontal")
  ]

  function Ids(): (r: seq<string>)
    ensures |r| == |DiagramTypes|
    ensures forall k :: 0 <= k < |r| ==> r[k] == DiagramTypes[k].id
  {
    seq(|DiagramTypes|, k requires 0 <= k < |DiagramTypes| => DiagramTypes[k].id)
  }

  /** Exactly these six types, with distinct ids. */
  lemma CatalogWellFormed()
    ensures Ids() == ["mind-map", "logical-structure", "logical-structure-left", "fishbone", "markdown", "horizontal"]
    ensures DistinctIds(DiagramTypes)
  {
  }

  /** The diagram shown as current: the matching entry, or "mind-map". */
  function CurrentDiagram(id: string): (e: Entry<string>)
    ensures e in DiagramTypes
    ensures id in Ids() ==> e.id == id
    ensures id !in Ids() ==> e.id == "mind-map"
  {
    FindOrFirst(DiagramTypes, id)
  }

  /** Picking a type from the menu makes it the current one and closes the menu. */
  lemma ChoosingSelects(k: nat)
    requires k < |DiagramTypes|
    ensures CurrentDiagram(Choose(DiagramTypes, k).reported) == DiagramTypes[k]
    ensures !Choose(DiagramTypes, k).menuOpen
  {
    CatalogWellFormed();
  }
}
