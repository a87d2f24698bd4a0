/** The nested-mapping form of a target, as `Target.to_dict` produces it and
    `Target(data)` consumes it, and what one parse-then-serialise pass does to
    such a mapping. Every key is always present in this form. */
module TargetDicts {
  import opened Common

  datatype AtomDict = AtomDict(name: Option<string>, index: Option<int>, x: Option<real>, y: Option<real>, z: Option<real>)

  datatype ResidueDict = ResidueDict(
    name: Option<string>, index: Option<int>, number: Option<int>, insCode: Option<string>, atoms: seq<AtomDict>)

  datatype ChainDict = ChainDict(name: Option<string>, authName: Option<string>, residues: seq<ResidueDict>)

  datatype TargetDict = TargetDict(chains: seq<ChainDict>, auth: bool)

  // What `to_dict` yields for an element freshly built from a mapping `d`.

  /** An atom without an index is invalid and reads its name as None. */
  function ParsedAtom(d: AtomDict): AtomDict {
    if d.index.Some? then d else d.(name := None)
  }

  function ParsedAtoms(ds: seq<AtomDict>): (r: seq<AtomDict>)
    ensures |r| == |ds|
    ensures forall i :: 0 <= i < |ds| ==> r[i] == ParsedAtom(ds[i])
  {
    seq(|ds|, i requires 0 <= i < |ds| => ParsedAtom(ds[i]))
  }

  /** A residue given only an index takes that index as its number. */
  function ParsedResidue(d: ResidueDict): ResidueDict {
    var number := if d.index.Some? && d.number.None? then d.index else d.number;
    d.(number := number, atoms := ParsedAtoms(d.atoms))
  }

  function ParsedResidues(ds: seq<ResidueDict>): (r: seq<ResidueDict>)
    ensures |r| == |ds|
    ensures forall i :: 0 <= i < |ds| ==> r[i] == ParsedResidue(ds[i])
  {
    seq(|ds|, i requires 0 <= i < |ds| => ParsedResidue(ds[i]))
  }

  /** A chain with a non-empty name and an empty or missing author name takes
      its name as author name. */
  function ParsedChain(d: ChainDict): ChainDict {
    var authName := if Truthy(d.name) && !Truthy(d.authName) then d.name else d.authName;
    d.(authName := authName, residues := ParsedResidues(d.residues))
  }

  function ParsedChains(ds: seq<ChainDict>): (r: seq<ChainDict>)
    ensures |r| == |ds|
    ensures forall i :: 0 <= i < |ds| ==> r[i] == ParsedChain(ds[i])
  {
    seq(|ds|, i requires 0 <= i < |ds| => ParsedChain(ds[i]))
  }

  // Parsing a list of mappings one more element at a time.

  lemma ParsedResiduesAppend(ds: seq<ResidueDict>, d: ResidueDict)
    ensures ParsedResidues(ds + [d]) == ParsedResidues(ds) + [ParsedResidue(d)]
  {
    assert forall i :: 0 <= i < |ds| ==> (ds + [d])[i] == ds[i];
  }

  lemma ParsedChainsAppend(ds: seq<ChainDict>, d: ChainDict)
    ensures ParsedChains(ds + [d]) == ParsedChains(ds) + [ParsedChain(d)]
  {
    assert forall i :: 0 <= i < |ds| ==> (ds + [d])[i] == ds[i];
  }

  /** Parsing ignores `auth`, so the rebuilt target always has `auth` False. */
  function ParsedTarget(d: TargetDict): TargetDict {
    TargetDict(ParsedChains(d.chains), false)
  }

  // The mappings that one parse-then-serialise pass leaves unchanged.

  predicate CanonicalAtom(d: AtomDict) {
    d.index.None? ==> d.name.None?
  }

  predicate CanonicalResidue(d: ResidueDict) {
    && (d.index.Some? ==> d.number.Some?)
    && forall i :: 0 <= i < |d.atoms| ==> CanonicalAtom(d.atoms[i])
  }

  predicate CanonicalChain(d: ChainDict) {
    && (Truthy(d.name) ==> Truthy(d.authName))
    && forall i :: 0 <= i < |d.residues| ==> CanonicalResidue(d.residues[i])
  }

  predicate CanonicalTarget(d: TargetDict) {
    && !d.auth
    && forall i :: 0 <= i < |d.chains| ==> CanonicalChain(d.chains[i])
  }

  lemma ParsedResidueFixpoint(d: ResidueDict)
    ensures ParsedResidue(d) == d <==> CanonicalResidue(d)
  {
    if CanonicalResidue(d) {
      assert ParsedAtoms(d.atoms) == d.atoms;
    }
    if ParsedResidue(d) == d {
      forall i | 0 <= i < |d.atoms| ensures CanonicalAtom(d.atoms[i]) {
        assert ParsedAtom(d.atoms[i]) == d.atoms[i];
      }
    }
  }

  lemma ParsedChainFixpoint(d: ChainDict)
    ensures ParsedChain(d) == d <==> CanonicalChain(d)
  {
    if CanonicalChain(d) {
      forall i | 0 <= i < |d.residues| ensures ParsedResidue(d.residues[i]) == d.residues[i] {
        ParsedResidueFixpoint(d.residues[i]);
      }
      assert ParsedResidues(d.residues) == d.residues;
    }
    if ParsedChain(d) == d {
      forall i | 0 <= i < |d.residues| ensures CanonicalResidue(d.residues[i]) {
        ParsedResidueFixpoint(d.residues[i]);
      }
    }
  }

  /** Round trip: rebuilding a target from a mapping and serialising it again
      gives the same mapping exactly when the mapping is canonical. */
  lemma ParsedTargetFixpoint(d: TargetDict)
    ensures ParsedTarget(d) == d <==> CanonicalTarget(d)
  {
    if CanonicalTarget(d) {
      forall i | 0 <= i < |d.chains| ensures ParsedChain(d.chains[i]) == d.chains[i] {
        ParsedChainFixpoint(d.chains[i]);
      }
      assert ParsedChains(d.chains) == d.chains;
    }
    if ParsedTarget(d) == d {
      forall i | 0 <= i < |d.chains| ensures CanonicalChain(d.chains[i]) {
        ParsedChainFixpoint(d.chains[i]);
      }
    }
  }

  /** Whatever a target is built from, its serialisation is canonical, so
      building again from that serialisation reproduces it. */
  lemma ParsedTargetIsCanonical(d: TargetDict)
    ensures CanonicalTarget(ParsedTarget(d))
    ensures ParsedTarget(ParsedTarget(d)) == ParsedTarget(d)
  {
    var p := ParsedTarget(d);
    forall i | 0 <= i < |p.chains| ensures CanonicalChain(p.chains[i]) {
      var c := p.chains[i];
      forall j | 0 <= j < |c.residues| ensures CanonicalResidue(c.residues[j]) {
        var r := c.residues[j];
        assert r == ParsedResidue(d.chains[i].residues[j]);
        forall k | 0 <= k < |r.atoms| ensures CanonicalAtom(r.atoms[k]) {
          assert r.atoms[k] == ParsedAtom(d.chains[i].residues[j].atoms[k]);
        }
      }
    }
    ParsedTargetFixpoint(p);
  }

  /** The `auth` flag of the input never reaches the rebuilt target. */
  lemma ParseIgnoresAuth(d: TargetDict)
    ensures ParsedTarget(d).auth == false
    ensures ParsedTarget(d.(auth := true)) == ParsedTarget(d.(auth := false))
  {
  }

  /** A residue mapping with an index but no number, which the `index` setter
      can produce on a number-less residue, is not canonical: a rebuild fills
      the number in from the index. */
  lemma IndexSetterBreaksRoundTrip(d: ResidueDict)
    ensures d.index.Some? && d.number.None? ==>
      !CanonicalResidue(d) && ParsedResidue(d).number == d.index && ParsedResidue(d) != d
  {
  }

  /** A chain mapping with a non-empty name and an empty or missing author
      name, which the `name` setter can produce, is not canonical: a rebuild
      copies the name into the author name. */
  lemma NameSetterBreaksRoundTrip(d: ChainDict)
    ensures Truthy(d.name) && !Truthy(d.authName) ==>
      !CanonicalChain(d) && ParsedChain(d).authName == d.name && ParsedChain(d) != d
  {
  }
}
