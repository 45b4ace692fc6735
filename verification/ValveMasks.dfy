/** Valve selections as 32-bit masks, and the interlock that keeps opposing valves apart. */
module ValveMasks {

  const TRACK_WIDTH_VALVES: bv32 := 0x50

  datatype ValveConfig = ValveConfig(managed: bv32, pair12: bv32, pair34: bv32, pair56: bv32)

  function ClearPair(mask: bv32, pair: bv32): bv32 {
    if pair != 0 && mask & pair == pair then mask & !pair else mask
  }

  function Sanitized(cfg: ValveConfig, requested: bv32): bv32 {
    ClearPair(ClearPair(ClearPair(requested & cfg.managed, cfg.pair12), cfg.pair34), cfg.pair56)
  }

  /** Not both members of a pair are selected. */
  predicate Apart(mask: bv32, pair: bv32) {
    pair == 0 || mask & pair != pair
  }

  predicate Part(a: bv32, b: bv32) {
    a & b == a
  }

  /** Two masks that select the same valves outside a group. */
  predicate SameOutside(a: bv32, b: bv32, group: bv32) {
    a & !group == b & !group
  }

  lemma ClearedApart(mask: bv32, pair: bv32)
    ensures Apart(ClearPair(mask, pair), pair)
  {
  }

  lemma ApartKept(mask: bv32, pair: bv32)
    requires Apart(mask, pair)
    ensures ClearPair(mask, pair) == mask
  {
  }

  lemma PartApart(part: bv32, mask: bv32, pair: bv32)
    requires Part(part, mask) && Apart(mask, pair)
    ensures Apart(part, pair)
  {
  }

  lemma RemovedPart(mask: bv32, kept: bv32)
    ensures Part(mask & kept, mask)
  {
  }

  lemma SelfPart(mask: bv32)
    ensures Part(mask, mask)
  {
  }

  lemma ClearedPart(mask: bv32, pair: bv32)
    ensures Part(ClearPair(mask, pair), mask)
  {
    hide Part;
    RemovedPart(mask, !pair);
    SelfPart(mask);
  }

  lemma PartOfPart(a: bv32, b: bv32, c: bv32)
    requires Part(a, b) && Part(b, c)
    ensures Part(a, c)
  {
  }

  lemma PartOfManaged(d: bv32, requested: bv32, managed: bv32)
    requires Part(d, requested & managed)
    ensures d & managed == d
  {
  }

  lemma RemovedTwice(mask: bv32, kept: bv32)
    ensures (mask & kept) & kept == mask & kept
  {
  }

  lemma RemovedOutside(mask: bv32, pair: bv32)
    ensures SameOutside(mask & !pair, mask, pair)
  {
    RemovedTwice(mask, !pair);
  }

  lemma SelfOutside(mask: bv32, pair: bv32)
    ensures SameOutside(mask, mask, pair)
  {
  }

  lemma ClearedOutside(mask: bv32, pair: bv32)
    ensures SameOutside(ClearPair(mask, pair), mask, pair)
  {
    hide SameOutside;
    RemovedOutside(mask, pair);
    SelfOutside(mask, pair);
  }

  lemma OutsideWider(a: bv32, b: bv32, group: bv32, all: bv32)
    requires SameOutside(a, b, group) && Part(group, all)
    ensures SameOutside(a, b, all)
  {
  }

  lemma OutsideChains(a: bv32, b: bv32, c: bv32, group: bv32)
    requires SameOutside(a, b, group) && SameOutside(b, c, group)
    ensures SameOutside(a, c, group)
  {
  }

  lemma FirstOfUnion(p: bv32, q: bv32, r: bv32)
    ensures Part(p, p | q | r)
  {
  }

  lemma SecondOfUnion(p: bv32, q: bv32, r: bv32)
    ensures Part(q, p | q | r)
  {
  }

  lemma ThirdOfUnion(p: bv32, q: bv32, r: bv32)
    ensures Part(r, p | q | r)
  {
  }

  /** The three pairs, cleared in turn, stay cleared. */
  lemma ChainApart(a: bv32, p: bv32, q: bv32, r: bv32)
    ensures var d := ClearPair(ClearPair(ClearPair(a, p), q), r);
            Part(d, a) && Apart(d, p) && Apart(d, q) && Apart(d, r)
  {
    hide ClearPair, Apart, Part;
    var b := ClearPair(a, p);
    var c := ClearPair(b, q);
    var d := ClearPair(c, r);
    ClearedApart(a, p);
    ClearedApart(b, q);
    ClearedApart(c, r);
    ClearedPart(a, p);
    ClearedPart(b, q);
    ClearedPart(c, r);
    PartApart(c, b, p);
    PartApart(d, c, p);
    PartApart(d, c, q);
    PartOfPart(c, b, a);
    PartOfPart(d, c, a);
  }

  lemma ChainOutside(a: bv32, p: bv32, q: bv32, r: bv32)
    ensures SameOutside(ClearPair(ClearPair(ClearPair(a, p), q), r), a, p | q | r)
  {
    hide ClearPair, SameOutside, Part;
    var b := ClearPair(a, p);
    var c := ClearPair(b, q);
    var d := ClearPair(c, r);
    FirstOfUnion(p, q, r);
    SecondOfUnion(p, q, r);
    ThirdOfUnion(p, q, r);
    ClearedOutside(a, p);
    ClearedOutside(b, q);
    ClearedOutside(c, r);
    OutsideWider(b, a, p, p | q | r);
    OutsideWider(c, b, q, p | q | r);
    OutsideWider(d, c, r, p | q | r);
    OutsideChains(c, b, a, p | q | r);
    OutsideChains(d, c, a, p | q | r);
  }

  lemma ApartAlready(cfg: ValveConfig, mask: bv32)
    requires mask & cfg.managed == mask
    requires Apart(mask, cfg.pair12) && Apart(mask, cfg.pair34) && Apart(mask, cfg.pair56)
    ensures Sanitized(cfg, mask) == mask
  {
    hide ClearPair, Apart;
    ApartKept(mask, cfg.pair12);
    ApartKept(mask, cfg.pair34);
    ApartKept(mask, cfg.pair56);
  }

  /** The sanitized mask holds managed, requested valves only and no complete pair; it
      holds every managed requested valve that belongs to no pair; sanitizing again changes
      nothing. */
  lemma SanitizedMask(cfg: ValveConfig, requested: bv32)
    ensures var mask := Sanitized(cfg, requested);
            && Part(mask, requested & cfg.managed)
            && Apart(mask, cfg.pair12) && Apart(mask, cfg.pair34) && Apart(mask, cfg.pair56)
            && SameOutside(mask, requested & cfg.managed, cfg.pair12 | cfg.pair34 | cfg.pair56)
            && Sanitized(cfg, mask) == mask
  {
    hide ClearPair, Apart, Part, SameOutside, Sanitized;
    SanitizedOnce(cfg, requested);
    var mask := Sanitized(cfg, requested);
    PartOfManaged(mask, requested, cfg.managed);
    ApartAlready(cfg, mask);
  }

  lemma SanitizedOnce(cfg: ValveConfig, requested: bv32)
    ensures var mask := Sanitized(cfg, requested);
            && Part(mask, requested & cfg.managed)
            && Apart(mask, cfg.pair12) && Apart(mask, cfg.pair34) && Apart(mask, cfg.pair56)
            && SameOutside(mask, requested & cfg.managed, cfg.pair12 | cfg.pair34 | cfg.pair56)
  {
    hide ClearPair, Apart, Part, SameOutside;
    ChainApart(requested & cfg.managed, cfg.pair12, cfg.pair34, cfg.pair56);
    ChainOutside(requested & cfg.managed, cfg.pair12, cfg.pair34, cfg.pair56);
  }
}
