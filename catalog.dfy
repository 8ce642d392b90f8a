/** The compound catalogue: twenty entries, each naming the preset recipe
    that builds its geometry. */
module Catalog {
  import M = Molecule
  import opened Numeric

  const CompoundCount: nat := 20

  /** `Compound`: display name, tile colour, recipe identifier and scale. */
  datatype Compound = Compound(name: string, colorRGBA: u32, presetType: int, baseScale: real)

  const Compounds: seq<Compound> := [
    Compound("Testosterone",                 0xE74C3CFF, 0,  1.00),
    Compound("Testosterone Enanthate",       0x00D2D3FF, 1,  1.00),
    Compound("Testosterone Cypionate",       0xF1C40FFF, 2,  1.00),
    Compound("Trenbolone",                   0xE056FDFF, 3,  1.00),
    Compound("Nandrolone / Deca",            0x2ECC71FF, 4,  1.00),
    Compound("Boldenone / EQ",               0xE67E22FF, 5,  1.00),
    Compound("Dianabol",                     0x3498DBFF, 6,  1.00),
    Compound("Anavar (Oxandrolone)",         0xFF6B81FF, 7,  1.00),
    Compound("Winstrol (Stanozolol)",        0xF1C40FFF, 8,  1.00),
    Compound("Anadrol (Oxymetholone)",       0x8E1B1BFF, 9,  1.00),
    Compound("Masteron (Drostanolone)",      0x7BED9FFF, 10, 1.00),
    Compound("Primobolan (Methenolone)",     0x9B59B6FF, 11, 1.00),
    Compound("Turinabol",                    0x00D2D3FF, 12, 1.00),
    Compound("Halotestin (Fluoxymesterone)", 0xE67E22FF, 13, 1.00),
    Compound("Proviron (Mesterolone)",       0x6C5CE7FF, 14, 1.00),
    Compound("Mibolerone",                   0xA55EEAFF, 15, 1.00),
    Compound("Superdrol",                    0x8E44ADFF, 16, 1.00),
    Compound("Oral Turinabol",               0x1ABC9CFF, 17, 1.00),
    Compound("Testosterone Propionate",      0xFF6B81FF, 18, 1.00),
    Compound("NPP",                          0x00CEC9FF, 19, 1.00)
  ]

  /** The catalogue has one entry per tile, each entry's recipe is its own
      index, and every scale is 1. */
  lemma CatalogShape()
    ensures |Compounds| == CompoundCount
    ensures forall i :: 0 <= i < |Compounds| ==> Compounds[i].presetType == i && Compounds[i].baseScale == 1.0
  {
  }

  /** The geometry of every catalogued compound, whatever the buffer held
      before: well formed, non-empty, far below both capacities, and with
      only the bond orders its recipe sets. */
  lemma CatalogInvariants(i: int, circle: M.Circle)
    requires 0 <= i < |Compounds|
    ensures M.WellFormed(M.ApplyPreset(Compounds[i].presetType, circle))
    ensures 0 < |M.ApplyPreset(Compounds[i].presetType, circle).pos| <= 31
    ensures 0 < |M.ApplyPreset(Compounds[i].presetType, circle).bonds| <= 37
    ensures forall j :: 0 <= j < |M.ApplyPreset(Compounds[i].presetType, circle).bonds| ==>
      M.ApplyPreset(Compounds[i].presetType, circle).bonds[j].order in {1, 2}
  {
    CatalogShape();
    M.PresetInvariants(Compounds[i].presetType, circle);
    M.PresetBondOrders(Compounds[i].presetType, circle);
  }

  /** The 31-atom, 37-bond bound is reached: Testosterone Cypionate (the
      seven-carbon tail) meets it exactly. */
  lemma LargestCompound(circle: M.Circle)
    ensures |M.ApplyPreset(Compounds[2].presetType, circle).pos| == 31
    ensures |M.ApplyPreset(Compounds[2].presetType, circle).bonds| == 37
  {
    CatalogShape();
    M.PresetInvariants(2, circle);
  }
}
