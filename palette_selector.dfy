/** The colour-palette catalog of the floating palette selector and the
    depth-indexed colour rule used by every view. */
module PaletteSelector {
  import opened Catalog

  type Colors = seq<string>

  /** The nine palettes, in menu order; entry 0 is the fallback. */
  const Palettes: seq<Entry<Colors>> := [
    Entry("default", "Padrão", ["#4f46e5", "#60a5fa", "#93c5fd", "#bfdbfe", "#dbeafe"]),
    Entry("blue", "Azul", ["#1e40af", "#3b82f6", "#93c5fd", "#dbeafe"]),
    Entry("green", "Verde", ["#166534", "#22c55e", "#86efac", "#dcfce7"]),
    Entry("red", "Vermelho", ["#991b1b", "#ef4444", "#fca5a5", "#fee2e2"]),
    Entry("purple", "Roxo", ["#6b21a8", "#a855f7", "#d8b4fe", "#f3e8ff"]),
    Entry("orange", "Laranja", ["#9a3412", "#f97316", "#fdba74", "#ffedd5"]),
    Entry("rainbow", "Arco-íris", ["#ef4444", "#f97316", "#eab308", "#22c55e", "#3b82f6", "#a855f7"]),
    Entry("pastel", "Pastel", ["#f87171", "#fdba74", "#fde047", "#86efac", "#93c5fd", "#d8b4fe"]),
    Entry("earth", "Terra", ["#78350f", "#a16207", "#15803d", "#166534", "#1e3a8a"])
  ]

  /** Nine entries, distinct ids, every colour list non-empty. */
  lemma CatalogWellFormed()
    ensures |Palettes| == 9
    ensures DistinctIds(Palettes)
    ensures forall k :: 0 <= k < |Palettes| ==> |Palettes[k].value| > 0
  {
  }

  /** The palette shown as current: the entry with the given id, or "default". */
  function CurrentPalette(id: string): (e: Entry<Colors>)
    ensures e in Palettes
    ensures (exists k :: 0 <= k < |Palettes| && Palettes[k].id == id) ==> e.id == id
    ensures (forall k :: 0 <= k < |Palettes| ==> Palettes[k].id != id) ==> e.id == "default"
  {
    FindOrFirst(Palettes, id)
  }

  /** The swatches shown for a palette: `colors.slice(0, 4)`. */
  function Preview(colors: Colors): (r: Colors)
    ensures |r| == if |colors| < 4 then |colors| else 4
    ensures r <= colors
  {
    colors[..if |colors| < 4 then |colors| else 4]
  }

  /** `colors[depth % colors.length]`: cyclic, always in range for a
      non-empty palette. */
  function ColorAt(colors: Colors, depth: nat): (c: string)
    requires |colors| > 0
    ensures c in colors
    ensures depth < |colors| ==> c == colors[depth]
  {
    colors[depth % |colors|]
  }

  /** Depths that differ by the palette length get the same colour. */
  lemma ColorPeriodic(colors: Colors, depth: nat)
    requires |colors| > 0
    ensures ColorAt(colors, depth + |colors|) == ColorAt(colors, depth)
  {
    ModShift(depth, |colors|);
  }

  lemma ModShift(a: nat, n: nat)
    requires n > 0
    ensures (a + n) % n == a % n
  {
    var q, r := a / n, a % n;
    assert a + n == n * (q + 1) + r by {
      assert n * (q + 1) == n * q + n;
    }
    ModUnique(a + n, n, q + 1, r);
  }

  /** Euclidean remainder is determined by any quotient/remainder pair. */
  lemma ModUnique(x: int, n: int, q: int, r: int)
    requires n > 0 && 0 <= r < n && x == n * q + r
    ensures x % n == r
  {
    var q', r' := x / n, x % n;
    var d := q' - q;
    assert n * d == r - r' by {
      assert n * q' - n * q == n * (q' - q);
    }
    if d > 0 {
      MulAtLeast(n, d);
    } else if d < 0 {
      MulAtLeast(n, -d);
    }
  }

  lemma MulAtLeast(n: int, d: int)
    requires n > 0 && d >= 1
    ensures n * d >= n
  {
    if d > 1 {
      MulAtLeast(n, d - 1);
      assert n * d == n * (d - 1) + n;
    }
  }

  /** Picking a palette from the menu makes it the current one and closes the menu. */
  lemma ChoosingSelects(k: nat)
    requires k < |Palettes|
    ensures CurrentPalette(Choose(Palettes, k).reported) == Palettes[k]
    ensures !Choose(Palettes, k).menuOpen
  {
    CatalogWellFormed();
  }
}
