/** The structural addressing model: a target owns chains, a chain owns
    residues, a residue owns atoms. Every node carries a `valid` flag that its
    constructor derives and some setters overwrite; getters of some fields
    read None on an invalid node. Lookups return the first match in insertion
    order, or a fresh sentinel node on a miss; removals take a key or an
    instance and delete one element in place. */
module Addressing {
  import opened Common
  import opened Geometry
  import opened TargetDicts

  // ---------------------------------------------------------------------
  // Sequence helpers for Python's `list.index` and `del list[k]`.

  /** `list.index(x)`: the first position holding `x` (by identity for
      objects), or `|s|` where Python raises ValueError. */
  function IndexOf<T(==)>(s: seq<T>, x: T): (k: nat)
    ensures k <= |s|
    ensures k < |s| ==> s[k] == x
    ensures forall j :: 0 <= j < k ==> s[j] != x
  {
    if s == [] then 0 else if s[0] == x then 0 else 1 + IndexOf(s[1..], x)
  }

  /** `del s[k]` when `k` is a position of `s`; `s` itself otherwise. */
  function RemovedAt<T>(s: seq<T>, k: nat): (r: seq<T>)
    ensures k < |s| ==> |r| == |s| - 1
    ensures k < |s| ==> forall j :: 0 <= j < k ==> r[j] == s[j]
    ensures k < |s| ==> forall j :: k <= j < |r| ==> r[j] == s[j + 1]
    ensures k >= |s| ==> r == s
  {
    if k < |s| then s[..k] + s[k + 1..] else s
  }

  // ---------------------------------------------------------------------
  // Atom

  class Atom {
    var index: Option<int>
    var name: Option<string>
    var x: Option<real>
    var y: Option<real>
    var z: Option<real>
    var valid: bool

    /** `Atom(index, name, x, y, z)`: valid exactly when it has an index. */
    constructor (index: Option<int>, name: Option<string>, x: Option<real>, y: Option<real>, z: Option<real>)
      ensures this.index == index && this.name == name
      ensures this.x == x && this.y == y && this.z == z
      ensures valid <==> index.Some?
      ensures Dict() == ParsedAtom(AtomDict(name, index, x, y, z))
    {
      this.name := name;
      this.index := index;
      this.x := x;
      this.y := y;
      this.z := z;
      this.valid := index.Some?;
    }

    /** `Atom()`, the sentinel a lookup miss returns. */
    predicate IsBlank()
      reads this
    {
      index.None? && name.None? && x.None? && y.None? && z.None? && !valid
    }

    /** The `name` property: None on an invalid atom. */
    function Name(): Option<string>
      reads this
    {
      if valid then name else None
    }

    /** The `index` property: None on an invalid atom. */
    function Index(): Option<int>
      reads this
    {
      if valid then index else None
    }

    function Coordinates(): Coords
      reads this
    {
      Coords(x, y, z)
    }

    /** The mapping `Target.to_dict` emits for this atom. */
    function Dict(): AtomDict
      reads this
    {
      AtomDict(Name(), Index(), x, y, z)
    }

    method SetName(value: Option<string>)
      modifies this
      ensures name == value
      ensures index == old(index) && valid == old(valid)
      ensures x == old(x) && y == old(y) && z == old(z)
    {
      name := value;
    }

    /** The `index` setter for an int value: stores it and makes the atom valid. */
    method SetIndex(value: int)
      modifies this
      ensures index == Some(value) && valid
      ensures name == old(name)
      ensures x == old(x) && y == old(y) && z == old(z)
    {
      index := Some(value);
      valid := true;
    }
  }

  /** The name lookup of `find_atom`: the first atom whose `name` property
      equals `name`, or `|atoms|` when there is none. */
  function FirstNamed(atoms: seq<Atom>, name: Option<string>): (k: nat)
    reads atoms
    ensures k <= |atoms|
    ensures k < |atoms| ==> atoms[k].Name() == name
    ensures forall j :: 0 <= j < k ==> atoms[j].Name() != name
  {
    if atoms == [] then 0
    else if atoms[0].Name() == name then 0
    else 1 + FirstNamed(atoms[1..], name)
  }

  /** The atom a name lookup finds, if any. */
  function AtomLookup(atoms: seq<Atom>, name: Option<string>): (r: Option<Atom>)
    reads atoms
    ensures r.Some? <==> FirstNamed(atoms, name) < |atoms|
    ensures r.Some? ==> r.value == atoms[FirstNamed(atoms, name)] && r.value.Name() == name
  {
    var k := FirstNamed(atoms, name);
    if k < |atoms| then Some(atoms[k]) else None
  }

  ghost function AtomDicts(atoms: seq<Atom>): (r: seq<AtomDict>)
    reads atoms
    ensures |r| == |atoms|
    ensures forall i :: 0 <= i < |atoms| ==> r[i] == atoms[i].Dict()
  {
    seq(|atoms|, i requires 0 <= i < |atoms| reads atoms => atoms[i].Dict())
  }

  /** The valid atoms of `atoms`, in order. */
  ghost function ValidOnly(atoms: seq<Atom>): seq<Atom>
    reads atoms
  {
    if atoms == [] then []
    else ValidOnly(atoms[..|atoms| - 1]) + (if atoms[|atoms| - 1].valid then [atoms[|atoms| - 1]] else [])
  }

  lemma {:induction false} ValidOnlyMembers(atoms: seq<Atom>, a: Atom)
    ensures a in ValidOnly(atoms) <==> a in atoms && a.valid
  {
    if atoms != [] {
      var init := atoms[..|atoms| - 1];
      ValidOnlyMembers(init, a);
      assert atoms == init + [atoms[|atoms| - 1]];
    }
  }

  function CoordinatesOf(atoms: seq<Atom>): (r: seq<Coords>)
    reads atoms
    ensures |r| == |atoms|
    ensures forall i :: 0 <= i < |atoms| ==> r[i] == atoms[i].Coordinates()
  {
    seq(|atoms|, i requires 0 <= i < |atoms| reads atoms => atoms[i].Coordinates())
  }

  // ---------------------------------------------------------------------
  // Residue

  /** The argument of `remove_atom`: an Atom instance or a name. */
  datatype AtomKey = AtomInstance(atom: Atom) | AtomName(name: Option<string>)

  class Residue {
    var name: Option<string>
    var index: Option<int>
    var number: Option<int>
    var insCode: Option<string>
    var atoms: seq<Atom>
    var valid: bool

    /** `Residue(index, number, ins_code, name, atoms)`: the number defaults to
        the index, the atoms are built from their mappings in order, and the
        residue is valid when it has a number or an index. */
    constructor (index: Option<int>, number: Option<int>, insCode: Option<string>, name: Option<string>, atoms: seq<AtomDict>)
      ensures this.name == name && this.index == index && this.insCode == insCode
      ensures this.number == (if index.Some? && number.None? then index else number)
      ensures valid <==> this.number.Some? || this.index.Some?
      ensures |this.atoms| == |atoms|
      ensures forall j :: 0 <= j < |atoms| ==> (this.atoms[j].valid <==> atoms[j].index.Some?)
      ensures Dict() == ParsedResidue(ResidueDict(name, index, number, insCode, atoms))
    {
      this.name := name;
      this.index := index;
      var num := if index.Some? && number.None? then index else number;
      this.number := num;
      this.insCode := insCode;
      this.atoms := [];
      this.valid := num.Some? || index.Some?;
      new;
      var i := 0;
      while i < |atoms|
        invariant 0 <= i <= |atoms|
        invariant this.name == name && this.index == index && this.insCode == insCode
        invariant this.number == (if index.Some? && number.None? then index else number)
        invariant valid <==> this.number.Some? || this.index.Some?
        invariant |this.atoms| == i
        invariant forall j :: 0 <= j < i ==> this.atoms[j].Dict() == ParsedAtom(atoms[j])
        invariant forall j :: 0 <= j < i ==> (this.atoms[j].valid <==> atoms[j].index.Some?)
      {
        var d := atoms[i];
        AddAtom(d.index, d.name, d.x, d.y, d.z);
        i := i + 1;
      }
      assert AtomDicts(this.atoms) == ParsedAtoms(atoms);
    }

    /** `Residue()`, the sentinel a lookup miss returns. */
    predicate IsBlank()
      reads this
    {
      name == Some("") && index.None? && number.None? && insCode == Some("") && atoms == [] && !valid
    }

    /** The `index` property: None on an invalid residue. */
    function Index(): Option<int>
      reads this
    {
      if valid then index else None
    }

    /** The `number` property: None on an invalid residue. */
    function Number(): Option<int>
      reads this
    {
      if valid then number else None
    }

    /** The mapping `Target.to_dict` emits for this residue. */
    ghost function Dict(): ResidueDict
      reads this, atoms
    {
      ResidueDict(name, Index(), Number(), insCode, AtomDicts(atoms))
    }

    method SetName(value: Option<string>)
      modifies this
      ensures name == value
      ensures index == old(index) && number == old(number) && insCode == old(insCode)
      ensures atoms == old(atoms) && valid == old(valid)
    {
      name := value;
    }

    /** The `index` setter for an int value: stores it and makes the residue valid. */
    method SetIndex(value: int)
      modifies this
      ensures index == Some(value) && valid
      ensures name == old(name) && number == old(number) && insCode == old(insCode) && atoms == old(atoms)
    {
      index := Some(value);
      valid := true;
    }

    /** The `number` setter for an int value: stores it and makes the residue valid. */
    method SetNumber(value: int)
      modifies this
      ensures number == Some(value) && valid
      ensures name == old(name) && index == old(index) && insCode == old(insCode) && atoms == old(atoms)
    {
      number := Some(value);
      valid := true;
    }

    /** The `ins_code` setter overwrites validity with the truthiness of the code. */
    method SetInsCode(value: Option<string>)
      modifies this
      ensures insCode == value && valid == Truthy(value)
      ensures name == old(name) && index == old(index) && number == old(number) && atoms == old(atoms)
    {
      insCode := value;
      valid := Truthy(value);
    }

    /** `find_atom(name)`: raises on an invalid residue; otherwise the first
        atom whose name property matches, or a fresh `Atom()`. */
    method FindAtom(name: Option<string>) returns (r: Result<Atom>)
      ensures !valid ==> r == Err(ValueError)
      ensures valid && old(AtomLookup(atoms, name)).Some? ==> r == Ok(old(AtomLookup(atoms, name)).value)
      ensures valid && old(AtomLookup(atoms, name)).None? ==> r.Ok? && fresh(r.value) && r.value.IsBlank()
    {
      if !valid {
        return Err(ValueError);
      }
      var i := 0;
      while i < |atoms|
        invariant 0 <= i <= |atoms|
        invariant forall j :: 0 <= j < i ==> atoms[j].Name() != name
      {
        if atoms[i].Name() == name {
          return Ok(atoms[i]);
        }
        i := i + 1;
      }
      var blank := new Atom(None, None, None, None, None);
      return Ok(blank);
    }

    /** `add_atom`: appends a new atom; nothing else changes. */
    method AddAtom(index: Option<int>, name: Option<string>, x: Option<real>, y: Option<real>, z: Option<real>)
      modifies this
      ensures |atoms| == |old(atoms)| + 1 && atoms[..|old(atoms)|] == old(atoms)
      ensures fresh(atoms[|old(atoms)|])
      ensures atoms[|old(atoms)|].index == index && atoms[|old(atoms)|].name == name
      ensures atoms[|old(atoms)|].valid <==> index.Some?
      ensures atoms[|old(atoms)|].Dict() == ParsedAtom(AtomDict(name, index, x, y, z))
      ensures this.name == old(this.name) && this.index == old(this.index) && number == old(number)
      ensures insCode == old(insCode) && valid == old(valid)
    {
      var atom := new Atom(index, name, x, y, z);
      atoms := atoms + [atom];
    }

    /** `remove_atom(name_or_atom)`: deletes the first occurrence of the
        instance, or the first atom found by name when it is valid, and says
        whether it deleted; a name lookup on an invalid residue raises. */
    method RemoveAtom(key: AtomKey) returns (r: Result<bool>)
      modifies this
      ensures name == old(name) && index == old(index) && number == old(number)
      ensures insCode == old(insCode) && valid == old(valid)
      ensures key.AtomInstance? ==>
        var k := IndexOf(old(atoms), key.atom);
        r == Ok(k < |old(atoms)|) && atoms == RemovedAt(old(atoms), k)
      ensures key.AtomName? && !valid ==> r == Err(ValueError) && atoms == old(atoms)
      ensures key.AtomName? && valid ==>
        var k := old(FirstNamed(atoms, key.name));
        var hit := k < |old(atoms)| && old(atoms)[k].valid;
        r == Ok(hit) && atoms == if hit then RemovedAt(old(atoms), k) else old(atoms)
    {
      match key {
        case AtomInstance(atom) =>
          var k := IndexOf(atoms, atom);
          if k < |atoms| {
            atoms := atoms[..k] + atoms[k + 1..];
            return Ok(true);
          }
          return Ok(false);
        case AtomName(n) =>
          var found := FindAtom(n);
          if found.Err? {
            return Err(found.error);
          }
          var atom := found.value;
          if atom.valid {
            var f := FirstNamed(atoms, n);
            var k := IndexOf(atoms, atom);
            assert k == f by {
              assert atoms[f] == atom;
            }
            atoms := atoms[..k] + atoms[k + 1..];
            return Ok(true);
          }
          return Ok(false);
      }
    }

    /** The loop of `Target.to_dict` over this residue's atoms. */
    method ToDict() returns (d: ResidueDict)
      ensures d == Dict()
    {
      var acc: seq<AtomDict> := [];
      var i := 0;
      while i < |atoms|
        invariant 0 <= i <= |atoms|
        invariant acc == AtomDicts(atoms[..i])
      {
        acc := acc + [atoms[i].Dict()];
        i := i + 1;
      }
      assert atoms[..i] == atoms;
      d := ResidueDict(name, Index(), Number(), insCode, acc);
    }
  }

  /** The match of `find_residue`: the number property and the insertion code
      (None read as "") both agree. */
  predicate ResidueMatches(r: Residue, number: Option<int>, insCode: string)
    reads r
  {
    r.Number() == number && OrEmpty(r.insCode) == insCode
  }

  function FirstResidue(residues: seq<Residue>, number: Option<int>, insCode: string): (k: nat)
    reads residues
    ensures k <= |residues|
    ensures k < |residues| ==> ResidueMatches(residues[k], number, insCode)
    ensures forall j :: 0 <= j < k ==> !ResidueMatches(residues[j], number, insCode)
  {
    if residues == [] then 0
    else if ResidueMatches(residues[0], number, insCode) then 0
    else 1 + FirstResidue(residues[1..], number, insCode)
  }

  /** The residue a number lookup finds, if any. */
  function ResidueLookup(residues: seq<Residue>, number: Option<int>, insCode: string): (r: Option<Residue>)
    reads residues
    ensures r.Some? <==> FirstResidue(residues, number, insCode) < |residues|
    ensures r.Some? ==> r.value == residues[FirstResidue(residues, number, insCode)] && ResidueMatches(r.value, number, insCode)
  {
    var k := FirstResidue(residues, number, insCode);
    if k < |residues| then Some(residues[k]) else None
  }

  /** The atom `find_atom` reaches inside `chain`: the named atom of the
      residue found by number, when the chain and that residue are valid. */
  function AtomLookupInChain(chain: Chain, number: Option<int>, atomName: Option<string>, insCode: string): (r: Option<Atom>)
    reads chain, chain.residues, AtomsIn(chain.residues)
    ensures r.Some? ==> chain.valid && r.value.Name() == atomName
  {
    var residue := if chain.valid then ResidueLookup(chain.residues, number, insCode) else None;
    if residue.Some? && residue.value.valid then AtomLookup(residue.value.atoms, atomName) else None
  }

  /** Every atom held by one of the residues. */
  ghost function AtomsIn(residues: seq<Residue>): (s: set<Atom>)
    reads residues
    ensures forall r, a :: r in residues && a in r.atoms ==> a in s
  {
    set r, a | r in residues && a in r.atoms :: a
  }

  ghost function ResidueDicts(residues: seq<Residue>): (r: seq<ResidueDict>)
    reads residues, AtomsIn(residues)
    ensures |r| == |residues|
    ensures forall i :: 0 <= i < |residues| ==> r[i] == residues[i].Dict()
  {
    seq(|residues|, i requires 0 <= i < |residues| reads residues, AtomsIn(residues) => residues[i].Dict())
  }

  lemma ResidueDictsPointwise(residues: seq<Residue>, ds: seq<ResidueDict>)
    requires |residues| == |ds|
    requires forall j :: 0 <= j < |residues| ==> residues[j].Dict() == ds[j]
    ensures ResidueDicts(residues) == ds
  {
  }

  /** The valid atoms of all residues, residue by residue, in order: what
      `Chain.atoms` lists. */
  ghost function ValidAtoms(residues: seq<Residue>): seq<Atom>
    reads residues, AtomsIn(residues)
  {
    if residues == [] then []
    else
      var init := residues[..|residues| - 1];
      assert AtomsIn(init) <= AtomsIn(residues);
      ValidAtoms(init) + ValidOnly(residues[|residues| - 1].atoms)
  }

  /** `Chain.atoms` lists exactly the valid atoms held by its residues. */
  lemma {:induction false} ValidAtomsMembers(residues: seq<Residue>, a: Atom)
    ensures a in ValidAtoms(residues) <==> a.valid && exists r :: r in residues && a in r.atoms
  {
    if residues != [] {
      var init := residues[..|residues| - 1];
      var last := residues[|residues| - 1];
      ValidAtomsMembers(init, a);
      ValidOnlyMembers(last.atoms, a);
      assert residues == init + [last];
    }
  }

  /** The valid residues of `residues`, in order. */
  ghost function ValidResiduesOnly(residues: seq<Residue>): seq<Residue>
    reads residues
  {
    if residues == [] then []
    else
      ValidResiduesOnly(residues[..|residues| - 1])
        + (if residues[|residues| - 1].valid then [residues[|residues| - 1]] else [])
  }

  lemma {:induction false} ValidResiduesOnlyMembers(residues: seq<Residue>, r: Residue)
    ensures r in ValidResiduesOnly(residues) <==> r in residues && r.valid
  {
    if residues != [] {
      var init := residues[..|residues| - 1];
      ValidResiduesOnlyMembers(init, r);
      assert residues == init + [residues[|residues| - 1]];
    }
  }

  // ---------------------------------------------------------------------
  // Chain

  /** The argument of `remove_residue`: a Residue instance, or a number with
      an insertion code. */
  datatype ResidueKey = ResidueInstance(residue: Residue) | ResidueNumber(number: Option<int>, insCode: string)

  class Chain {
    var name: Option<string>
    var authName: Option<string>
    var residues: seq<Residue>
    var valid: bool

    /** `Chain(chain_name, residues, auth_name)`: a non-empty name stands in for
        an empty or missing author name; the residues are built from their
        mappings in order; the chain is valid when either name is not None. */
    constructor (chainName: Option<string>, residues: seq<ResidueDict>, authName: Option<string>)
      ensures name == chainName
      ensures this.authName == (if Truthy(chainName) && !Truthy(authName) then chainName else authName)
      ensures valid <==> name.Some? || this.authName.Some?
      ensures |this.residues| == |residues|
      ensures forall j :: 0 <= j < |residues| ==>
        (this.residues[j].valid <==> residues[j].number.Some? || residues[j].index.Some?)
      ensures Dict() == ParsedChain(ChainDict(chainName, authName, residues))
    {
      var auth := if Truthy(chainName) && !Truthy(authName) then chainName else authName;
      this.name := chainName;
      this.authName := auth;
      this.residues := [];
      this.valid := chainName.Some? || auth.Some?;
      new;
      ParseData(residues);
    }

    /** `__parse_data(residues)`, run by the constructor on the still empty
        chain: one residue per mapping, in order; the names and validity of
        the chain do not change. */
    method ParseData(ds: seq<ResidueDict>)
      requires residues == []
      modifies this
      ensures name == old(name) && authName == old(authName) && valid == old(valid)
      ensures |residues| == |ds|
      ensures forall j :: 0 <= j < |ds| ==> (residues[j].valid <==> ds[j].number.Some? || ds[j].index.Some?)
      ensures ResidueDicts(residues) == ParsedResidues(ds)
    {
      var i := 0;
      while i < |ds|
        invariant 0 <= i <= |ds|
        invariant name == old(name) && authName == old(authName) && valid == old(valid)
        invariant |residues| == i
        invariant forall j :: 0 <= j < i ==> (residues[j].valid <==> ds[j].number.Some? || ds[j].index.Some?)
        invariant ResidueDicts(residues) == ParsedResidues(ds[..i])
      {
        var d := ds[i];
        assert ResidueDict(d.name, d.index, d.number, d.insCode, d.atoms) == d;
        assert ds[..i + 1] == ds[..i] + [d];
        ParsedResiduesAppend(ds[..i], d);
        AddResidue(d.index, d.number, d.insCode, d.name, d.atoms);
        i := i + 1;
      }
      assert ds[..i] == ds;
    }

    /** `Chain()`, which a `find_chain` miss returns: it is VALID, because its
        author name defaults to "" rather than None. */
    predicate IsDefault()
      reads this
    {
      name.None? && authName == Some("") && residues == [] && valid
    }

    /** The `name` property: None on an invalid chain. */
    function Name(): Option<string>
      reads this
    {
      if valid then name else None
    }

    /** The `auth_name` property: None on an invalid chain. */
    function AuthName(): Option<string>
      reads this
    {
      if valid then authName else None
    }

    /** The mapping `Target.to_dict` emits for this chain. */
    ghost function Dict(): ChainDict
      reads this, residues, AtomsIn(residues)
    {
      ChainDict(Name(), AuthName(), ResidueDicts(residues))
    }

    /** The `name` setter overwrites validity with the truthiness of the name. */
    method SetName(value: Option<string>)
      modifies this
      ensures name == value && valid == Truthy(value)
      ensures authName == old(authName) && residues == old(residues)
    {
      name := value;
      valid := Truthy(value);
    }

    /** The `auth_name` setter overwrites validity with the truthiness of the name. */
    method SetAuthName(value: Option<string>)
      modifies this
      ensures authName == value && valid == Truthy(value)
      ensures name == old(name) && residues == old(residues)
    {
      authName := value;
      valid := Truthy(value);
    }

    /** The `atoms` property: the valid atoms of every residue, in order. */
    method Atoms() returns (r: seq<Atom>)
      ensures r == ValidAtoms(residues)
    {
      r := [];
      var i := 0;
      while i < |residues|
        invariant 0 <= i <= |residues|
        invariant r == ValidAtoms(residues[..i])
      {
        var atoms := residues[i].atoms;
        var j := 0;
        while j < |atoms|
          invariant 0 <= j <= |atoms|
          invariant r == ValidAtoms(residues[..i]) + ValidOnly(atoms[..j])
        {
          if atoms[j].valid {
            r := r + [atoms[j]];
          }
          assert atoms[..j + 1][..j] == atoms[..j];
          j := j + 1;
        }
        assert atoms[..j] == atoms;
        assert residues[..i + 1][..i] == residues[..i];
        i := i + 1;
      }
      assert residues[..i] == residues;
    }

    /** `find_residue(number, ins_code)`: raises on an invalid chain; otherwise
        the first matching residue, or a fresh `Residue()`. */
    method FindResidue(number: Option<int>, insCode: string) returns (r: Result<Residue>)
      ensures !valid ==> r == Err(ValueError)
      ensures valid && old(ResidueLookup(residues, number, insCode)).Some? ==>
        r == Ok(old(ResidueLookup(residues, number, insCode)).value)
      ensures valid && old(ResidueLookup(residues, number, insCode)).None? ==>
        r.Ok? && fresh(r.value) && r.value.IsBlank()
    {
      if !valid {
        return Err(ValueError);
      }
      var i := 0;
      while i < |residues|
        invariant 0 <= i <= |residues|
        invariant forall j :: 0 <= j < i ==> !ResidueMatches(residues[j], number, insCode)
      {
        if ResidueMatches(residues[i], number, insCode) {
          return Ok(residues[i]);
        }
        i := i + 1;
      }
      var blank := new Residue(None, None, Some(""), Some(""), []);
      return Ok(blank);
    }

    /** `find_atom(residue_number, atom_name, ins_code)`: raises on an invalid
        chain; searches the found residue when it is valid and non-empty;
        otherwise a fresh `Atom()`. */
    method FindAtom(residueNumber: Option<int>, atomName: Option<string>, insCode: string) returns (r: Result<Atom>)
      ensures !valid ==> r == Err(ValueError)
      ensures valid ==>
        var residue := old(ResidueLookup(residues, residueNumber, insCode));
        var hit := old(if residue.Some? && residue.value.valid then AtomLookup(residue.value.atoms, atomName) else None);
        if hit.Some? then r == Ok(hit.value) else r.Ok? && fresh(r.value) && r.value.IsBlank()
    {
      if !valid {
        return Err(ValueError);
      }
      var found := FindResidue(residueNumber, insCode);
      var residue := found.value;
      if |residue.atoms| > 0 && residue.valid {
        r := residue.FindAtom(atomName);
        return;
      }
      var blank := new Atom(None, None, None, None, None);
      return Ok(blank);
    }

    /** `add_residue`: appends a residue built from the arguments; nothing else changes. */
    method AddResidue(index: Option<int>, number: Option<int>, insCode: Option<string>, name: Option<string>, atoms: seq<AtomDict>)
      modifies this
      ensures |residues| == |old(residues)| + 1 && residues == old(residues) + [residues[|old(residues)|]]
      ensures fresh(residues[|old(residues)|])
      ensures residues[|old(residues)|].valid <==> number.Some? || index.Some?
      ensures ResidueDicts(residues) == old(ResidueDicts(residues)) + [ParsedResidue(ResidueDict(name, index, number, insCode, atoms))]
      ensures this.name == old(this.name) && authName == old(authName) && valid == old(valid)
    {
      ghost var before := ResidueDicts(residues);
      var residue := new Residue(index, number, insCode, name, atoms);
      assert forall j :: 0 <= j < |residues| ==> residues[j].Dict() == old(residues[j].Dict());
      ResidueDictsPointwise(residues + [residue], before + [residue.Dict()]);
      // The chain itself is none of the atoms the residue dictionaries read.
      ghost var atomsRead: set<object> := AtomsIn(residues + [residue]);
      assert this !in atomsRead;
      residues := residues + [residue];
    }

    /** `remove_residue(number_or_residue, ins_code)`: deletes the first
        occurrence of the instance, or the residue found by number when it is
        valid, and says whether it deleted; a number lookup on an invalid
        chain raises. */
    method RemoveResidue(key: ResidueKey) returns (r: Result<bool>)
      modifies this
      ensures name == old(name) && authName == old(authName) && valid == old(valid)
      ensures key.ResidueInstance? ==>
        var k := IndexOf(old(residues), key.residue);
        r == Ok(k < |old(residues)|) && residues == RemovedAt(old(residues), k)
      ensures key.ResidueNumber? && !valid ==> r == Err(ValueError) && residues == old(residues)
      ensures key.ResidueNumber? && valid ==>
        var k := old(FirstResidue(residues, key.number, key.insCode));
        var hit := k < |old(residues)| && old(residues)[k].valid;
        r == Ok(hit) && residues == if hit then RemovedAt(old(residues), k) else old(residues)
    {
      match key {
        case ResidueInstance(residue) =>
          var k := IndexOf(residues, residue);
          if k < |residues| {
            residues := residues[..k] + residues[k + 1..];
            return Ok(true);
          }
          return Ok(false);
        case ResidueNumber(number, insCode) =>
          var found := FindResidue(number, insCode);
          if found.Err? {
            return Err(found.error);
          }
          var residue := found.value;
          if residue.valid {
            var f := FirstResidue(residues, number, insCode);
            var k := IndexOf(residues, residue);
            assert k == f by {
              assert residues[f] == residue;
            }
            residues := residues[..k] + residues[k + 1..];
            return Ok(true);
          }
          return Ok(false);
      }
    }

    /** The loop of `Target.to_dict` over this chain's residues. */
    method ToDict() returns (d: ChainDict)
      ensures d == Dict()
    {
      var acc: seq<ResidueDict> := [];
      var i := 0;
      while i < |residues|
        invariant 0 <= i <= |residues|
        invariant acc == ResidueDicts(residues[..i])
      {
        var rd := residues[i].ToDict();
        acc := acc + [rd];
        i := i + 1;
      }
      assert residues[..i] == residues;
      d := ChainDict(Name(), AuthName(), acc);
    }
  }

  /** The match of `find_chain`: the name property equals `name`. The same
      scan as `FirstNamed`, over chains, each read through its own frame. */
  function FirstChain(chains: seq<Chain>, name: Option<string>): (k: nat)
    reads chains
    ensures k <= |chains|
    ensures k < |chains| ==> chains[k].Name() == name
    ensures forall j :: 0 <= j < k ==> chains[j].Name() != name
  {
    if chains == [] then 0
    else if chains[0].Name() == name then 0
    else 1 + FirstChain(chains[1..], name)
  }

  /** The chain a name lookup finds, if any. */
  function ChainLookup(chains: seq<Chain>, name: Option<string>): (r: Option<Chain>)
    reads chains
    ensures r.Some? <==> FirstChain(chains, name) < |chains|
    ensures r.Some? ==> r.value == chains[FirstChain(chains, name)] && r.value.Name() == name
  {
    var k := FirstChain(chains, name);
    if k < |chains| then Some(chains[k]) else None
  }

  /** Every residue held by one of the chains. */
  ghost function ResiduesIn(chains: seq<Chain>): (s: set<Residue>)
    reads chains
    ensures forall c, r :: c in chains && r in c.residues ==> r in s
  {
    set c, r | c in chains && r in c.residues :: r
  }

  /** Every atom held by a residue of one of the chains. */
  ghost function AtomsInChains(chains: seq<Chain>): (s: set<Atom>)
    reads chains, ResiduesIn(chains)
    ensures forall c :: c in chains ==> AtomsIn(c.residues) <= s
  {
    set c, a | c in chains && a in AtomsIn(c.residues) :: a
  }

  ghost function ChainDicts(chains: seq<Chain>): (r: seq<ChainDict>)
    reads chains, ResiduesIn(chains), AtomsInChains(chains)
    ensures |r| == |chains|
    ensures forall i :: 0 <= i < |chains| ==> r[i] == chains[i].Dict()
  {
    seq(|chains|, i requires 0 <= i < |chains| reads chains, ResiduesIn(chains), AtomsInChains(chains) => chains[i].Dict())
  }

  lemma ChainDictsPointwise(chains: seq<Chain>, ds: seq<ChainDict>)
    requires |chains| == |ds|
    requires forall j :: 0 <= j < |chains| ==> chains[j].Dict() == ds[j]
    ensures ChainDicts(chains) == ds
  {
  }

  /** The valid residues of every chain, chain by chain: what `Target.residues` lists. */
  ghost function ValidResidues(chains: seq<Chain>): seq<Residue>
    reads chains, ResiduesIn(chains)
  {
    if chains == [] then []
    else
      var init := chains[..|chains| - 1];
      assert ResiduesIn(init) <= ResiduesIn(chains);
      ValidResidues(init) + ValidResiduesOnly(chains[|chains| - 1].residues)
  }

  /** The valid atoms of every residue of every chain, in order: what
      `Target.atoms` lists. */
  ghost function ValidAtomsOfChains(chains: seq<Chain>): seq<Atom>
    reads chains, ResiduesIn(chains), AtomsInChains(chains)
  {
    if chains == [] then []
    else
      var init := chains[..|chains| - 1];
      assert ResiduesIn(init) <= ResiduesIn(chains);
      assert AtomsInChains(init) <= AtomsInChains(chains);
      ValidAtomsOfChains(init) + ValidAtoms(chains[|chains| - 1].residues)
  }

  /** `Target.residues` lists exactly the valid residues held by its chains. */
  lemma {:induction false} ValidResiduesMembers(chains: seq<Chain>, r: Residue)
    ensures r in ValidResidues(chains) <==> r.valid && exists c :: c in chains && r in c.residues
  {
    if chains != [] {
      var init := chains[..|chains| - 1];
      var last := chains[|chains| - 1];
      ValidResiduesMembers(init, r);
      ValidResiduesOnlyMembers(last.residues, r);
      assert chains == init + [last];
    }
  }

  /** `Target.atoms` lists exactly the valid atoms held by residues of its
      chains, whether or not those residues are valid. */
  lemma {:induction false} ValidAtomsOfChainsMembers(chains: seq<Chain>, a: Atom)
    ensures a in ValidAtomsOfChains(chains) <==>
      a.valid && exists c, r :: c in chains && r in c.residues && a in r.atoms
  {
    if chains != [] {
      var init := chains[..|chains| - 1];
      var last := chains[|chains| - 1];
      ValidAtomsOfChainsMembers(init, a);
      ValidAtomsMembers(last.residues, a);
      assert chains == init + [last];
    }
  }

  // ---------------------------------------------------------------------
  // Target

  /** The argument of `remove_chain`: a Chain instance or a name. */
  datatype ChainKey = ChainInstance(chain: Chain) | ChainName(name: Option<string>)

  class Target {
    var chains: seq<Chain>
    var auth: bool
    var boundary: Option<Boundary>
    var valid: bool

    /** A target is valid exactly when it holds a chain. */
    predicate Inv()
      reads this
    {
      valid <==> |chains| > 0
    }

    /** `Target(data)`: builds the chains from their mappings in order; `auth`
        in the mapping is ignored and starts False; no boundary is cached. */
    constructor (data: TargetDict)
      ensures Inv() && !auth && boundary.None?
      ensures |chains| == |data.chains|
      ensures forall j :: 0 <= j < |data.chains| ==>
        (chains[j].valid <==> data.chains[j].name.Some? || data.chains[j].authName.Some?)
      ensures Dict() == ParsedTarget(data)
    {
      chains := [];
      auth := false;
      boundary := None;
      valid := false;
      new;
      ParseData(data.chains);
      // The target itself is none of the objects the chain dictionaries read.
      ghost var residuesRead: set<object> := ResiduesIn(chains);
      ghost var atomsRead: set<object> := AtomsInChains(chains);
      assert this !in residuesRead && this !in atomsRead;
      ghost var dicts := ChainDicts(chains);
      valid := |chains| > 0;
      assert ChainDicts(chains) == dicts;
    }

    /** `__parse_data(data)`, run by the constructor on the still empty
        target: one chain per mapping, in order; `auth` and the boundary cache
        do not change. */
    method ParseData(cs: seq<ChainDict>)
      requires chains == []
      modifies this
      ensures auth == old(auth) && boundary == old(boundary)
      ensures |chains| == |cs|
      ensures forall j :: 0 <= j < |cs| ==> (chains[j].valid <==> cs[j].name.Some? || cs[j].authName.Some?)
      ensures ChainDicts(chains) == ParsedChains(cs)
    {
      var i := 0;
      while i < |cs|
        invariant 0 <= i <= |cs|
        invariant auth == old(auth) && boundary == old(boundary)
        invariant |chains| == i
        invariant forall j :: 0 <= j < i ==> (chains[j].valid <==> cs[j].name.Some? || cs[j].authName.Some?)
        invariant ChainDicts(chains) == ParsedChains(cs[..i])
      {
        var d := cs[i];
        assert ChainDict(d.name, d.authName, d.residues) == d;
        assert cs[..i + 1] == cs[..i] + [d];
        ParsedChainsAppend(cs[..i], d);
        ghost var prev := chains;
        AddChain(d.name, d.residues, d.authName);
        forall j | 0 <= j < i + 1
          ensures chains[j].valid <==> cs[j].name.Some? || cs[j].authName.Some?
        {
          if j < i {
            assert chains[j] == prev[j];
          }
        }
        i := i + 1;
      }
      assert cs[..i] == cs;
    }

    /** The mapping `to_dict` returns. */
    ghost function Dict(): TargetDict
      reads this, chains, ResiduesIn(chains), AtomsInChains(chains)
    {
      TargetDict(ChainDicts(chains), auth)
    }

    /** The `residues` property: the valid residues of every chain, in order. */
    method Residues() returns (r: seq<Residue>)
      ensures r == ValidResidues(chains)
    {
      r := [];
      var i := 0;
      while i < |chains|
        invariant 0 <= i <= |chains|
        invariant r == ValidResidues(chains[..i])
      {
        var residues := chains[i].residues;
        var j := 0;
        while j < |residues|
          invariant 0 <= j <= |residues|
          invariant r == ValidResidues(chains[..i]) + ValidResiduesOnly(residues[..j])
        {
          if residues[j].valid {
            r := r + [residues[j]];
          }
          assert residues[..j + 1][..j] == residues[..j];
          j := j + 1;
        }
        assert residues[..j] == residues;
        assert chains[..i + 1][..i] == chains[..i];
        i := i + 1;
      }
      assert chains[..i] == chains;
    }

    /** The `atoms` property: the valid atoms of every residue of every chain, in order. */
    method Atoms() returns (r: seq<Atom>)
      ensures r == old(ValidAtomsOfChains(chains))
    {
      r := [];
      var i := 0;
      while i < |chains|
        invariant 0 <= i <= |chains|
        invariant r == old(ValidAtomsOfChains(chains[..i]))
      {
        ghost var ofChains := r;
        var residues := chains[i].residues;
        var j := 0;
        while j < |residues|
          invariant 0 <= j <= |residues|
          invariant r == ofChains + old(ValidAtoms(residues[..j]))
        {
          ghost var ofResidues := r;
          var atoms := residues[j].atoms;
          var k := 0;
          while k < |atoms|
            invariant 0 <= k <= |atoms|
            invariant r == ofResidues + old(ValidOnly(atoms[..k]))
          {
            if atoms[k].valid {
              r := r + [atoms[k]];
            }
            assert atoms[..k + 1][..k] == atoms[..k];
            k := k + 1;
          }
          assert atoms[..k] == atoms;
          assert residues[..j + 1][..j] == residues[..j];
          j := j + 1;
        }
        assert residues[..j] == residues;
        assert chains[..i + 1][..i] == chains[..i];
        i := i + 1;
      }
      assert chains[..i] == chains;
    }

    /** The `boundary` property: raises on an invalid target; otherwise the
        cached boundary, or the boundary of the valid atoms' coordinates,
        computed and cached on first success. The cache is never cleared. */
    method GetBoundary() returns (r: Result<Boundary>)
      modifies this
      ensures chains == old(chains) && auth == old(auth) && valid == old(valid)
      ensures !valid ==> r == Err(ValueError) && boundary == old(boundary)
      ensures valid && old(boundary).Some? ==> r == Ok(old(boundary).value) && boundary == old(boundary)
      ensures valid && old(boundary).None? ==>
        && r == BoundaryOf(old(CoordinatesOf(ValidAtomsOfChains(chains))))
        && boundary == (if r.Ok? then Some(r.value) else None)
    {
      if !valid {
        return Err(ValueError);
      }
      if boundary.Some? {
        return Ok(boundary.value);
      }
      var atoms := Atoms();
      var coords := CoordinatesOf(atoms);
      assert coords == old(CoordinatesOf(atoms));
      r := BoundaryOf(coords);
      if r.Ok? {
        boundary := Some(r.value);
      }
    }

    /** `find_chain(name)`: raises on an invalid target; otherwise the first
        chain whose name property matches, or a fresh `Chain()`, which is
        valid. */
    method FindChain(name: Option<string>) returns (r: Result<Chain>)
      ensures !valid ==> r == Err(ValueError)
      ensures valid && old(ChainLookup(chains, name)).Some? ==> r == Ok(old(ChainLookup(chains, name)).value)
      ensures valid && old(ChainLookup(chains, name)).None? ==> r.Ok? && fresh(r.value) && r.value.IsDefault()
    {
      if !valid {
        return Err(ValueError);
      }
      var i := 0;
      while i < |chains|
        invariant 0 <= i <= |chains|
        invariant forall j :: 0 <= j < i ==> chains[j].Name() != name
      {
        if chains[i].Name() == name {
          return Ok(chains[i]);
        }
        i := i + 1;
      }
      var default := new Chain(None, [], Some(""));
      return Ok(default);
    }

    /** `find_residue(chain_name, residue_number, ins_code)`: searches the
        residues of the chain found by name when it is valid; otherwise a
        fresh `Residue()`. */
    method FindResidue(chainName: Option<string>, number: Option<int>, insCode: string) returns (r: Result<Residue>)
      ensures !valid ==> r == Err(ValueError)
      ensures valid ==>
        var chain := old(ChainLookup(chains, chainName));
        var hit := old(if chain.Some? && chain.value.valid then ResidueLookup(chain.value.residues, number, insCode) else None);
        if hit.Some? then r == Ok(hit.value) else r.Ok? && fresh(r.value) && r.value.IsBlank()
    {
      var found := FindChain(chainName);
      if found.Err? {
        return Err(found.error);
      }
      var chain := found.value;
      if chain.valid {
        var i := 0;
        while i < |chain.residues|
          invariant 0 <= i <= |chain.residues|
          invariant forall j :: 0 <= j < i ==> !ResidueMatches(chain.residues[j], number, insCode)
        {
          if ResidueMatches(chain.residues[i], number, insCode) {
            return Ok(chain.residues[i]);
          }
          i := i + 1;
        }
      }
      var blank := new Residue(None, None, Some(""), Some(""), []);
      return Ok(blank);
    }

    /** `find_atom(chain_name, residue_number, atom_name, ins_code)`: searches
        the residue found in the chain found by name when both are valid;
        otherwise a fresh `Atom()`. */
    method FindAtom(chainName: Option<string>, number: Option<int>, atomName: Option<string>, insCode: string)
      returns (r: Result<Atom>)
      ensures !valid ==> r == Err(ValueError)
      ensures valid ==>
        var chain := old(ChainLookup(chains, chainName));
        var hit := old(if chain.Some? then AtomLookupInChain(chain.value, number, atomName, insCode) else None);
        if hit.Some? then r == Ok(hit.value) else r.Ok? && fresh(r.value) && r.value.IsBlank()
    {
      ghost var chain := ChainLookup(chains, chainName);
      ghost var hit := if chain.Some? then AtomLookupInChain(chain.value, number, atomName, insCode) else None;
      var found := FindChain(chainName);
      if found.Err? {
        return Err(found.error);
      }
      assert AtomLookupInChain(found.value, number, atomName, insCode) == hit;
      var atom := FindAtomInChain(found.value, number, atomName, insCode);
      return Ok(atom);
    }

    /** The rest of `find_atom` once the chain is found: the atom of the
        residue found in it when the chain and that residue are both valid,
        otherwise a fresh `Atom()`. */
    static method FindAtomInChain(chain: Chain, number: Option<int>, atomName: Option<string>, insCode: string)
      returns (a: Atom)
      ensures
        var hit := old(AtomLookupInChain(chain, number, atomName, insCode));
        if hit.Some? then a == hit.value else fresh(a) && a.IsBlank()
    {
      if chain.valid {
        var residue := chain.FindResidue(number, insCode);
        if residue.value.valid {
          var found := residue.value.FindAtom(atomName);
          return found.value;
        }
      }
      a := new Atom(None, None, None, None, None);
    }

    /** `add_chain`: appends a chain built from the arguments and makes the
        target valid; the cached boundary is left as it was. */
    method AddChain(name: Option<string>, residues: seq<ResidueDict>, authName: Option<string>)
      modifies this
      ensures |chains| == |old(chains)| + 1 && chains[..|old(chains)|] == old(chains)
      ensures fresh(chains[|old(chains)|])
      ensures chains[|old(chains)|].valid <==> name.Some? || authName.Some?
      ensures forall j :: 0 <= j < |old(chains)| ==> chains[j].valid == old(chains[j].valid)
      ensures ChainDicts(chains) == old(ChainDicts(chains)) + [ParsedChain(ChainDict(name, authName, residues))]
      ensures valid && Inv()
      ensures auth == old(auth) && boundary == old(boundary)
    {
      ghost var before := ChainDicts(chains);
      var chain := new Chain(name, residues, authName);
      assert forall j :: 0 <= j < |chains| ==> chains[j].valid == old(chains[j].valid);
      assert forall j :: 0 <= j < |chains| ==> chains[j].Dict() == old(chains[j].Dict());
      ChainDictsPointwise(chains + [chain], before + [chain.Dict()]);
      // The target itself is none of the objects the chain dictionaries read.
      ghost var residuesRead: set<object> := ResiduesIn(chains + [chain]);
      ghost var atomsRead: set<object> := AtomsInChains(chains + [chain]);
      assert this !in residuesRead && this !in atomsRead;
      chains := chains + [chain];
      valid := true;
    }

    /** `remove_chain(name_or_chain)`: deletes the first occurrence of the
        instance, or the chain found by name when it is valid, invalidating the
        target when it empties. A name that matches no chain RAISES: the
        `Chain()` sentinel is valid but not in the list. */
    method RemoveChain(key: ChainKey) returns (r: Result<bool>)
      modifies this
      ensures auth == old(auth) && boundary == old(boundary)
      ensures old(Inv()) ==> Inv()
      ensures key.ChainInstance? ==>
        var k := IndexOf(old(chains), key.chain);
        && r == Ok(k < |old(chains)|)
        && chains == RemovedAt(old(chains), k)
        && valid == (if k < |old(chains)| && chains == [] then false else old(valid))
      ensures key.ChainName? ==>
        var k := old(FirstChain(chains, key.name));
        if !old(valid) || k == |old(chains)| then
          r == Err(ValueError) && chains == old(chains) && valid == old(valid)
        else if !old(chains)[k].valid then
          r == Ok(false) && chains == old(chains) && valid == old(valid)
        else
          && r == Ok(true)
          && chains == RemovedAt(old(chains), k)
          && valid == (if chains == [] then false else old(valid))
    {
      match key {
        case ChainInstance(chain) =>
          var k := IndexOf(chains, chain);
          if k < |chains| {
            chains := chains[..k] + chains[k + 1..];
            if chains == [] {
              valid := false;
            }
            return Ok(true);
          }
          return Ok(false);
        case ChainName(n) =>
          var found := FindChain(n);
          if found.Err? {
            return Err(found.error);
          }
          var chain := found.value;
          if chain.valid {
            var k := IndexOf(chains, chain);
            if k == |chains| {
              // `list.index` raises ValueError: the default chain is not in the list.
              return Err(ValueError);
            }
            var f := FirstChain(chains, n);
            assert k == f by {
              assert f < |chains| && chains[f] == chain;
            }
            chains := chains[..k] + chains[k + 1..];
            if chains == [] {
              valid := false;
            }
            return Ok(true);
          }
          return Ok(false);
      }
    }

    /** `to_dict`: the nested mapping of every chain, residue and atom, with `auth`. */
    method ToDict() returns (d: TargetDict)
      ensures d == Dict()
    {
      var acc: seq<ChainDict> := [];
      var i := 0;
      while i < |chains|
        invariant 0 <= i <= |chains|
        invariant |acc| == i
        invariant forall j :: 0 <= j < i ==> acc[j] == chains[j].Dict()
      {
        var cd := chains[i].ToDict();
        acc := acc + [cd];
        i := i + 1;
      }
      d := TargetDict(acc, auth);
    }
  }

  /** The `index` setter on a residue without a number: afterwards its
      `to_dict` mapping is one a rebuild would change. */
  method ResidueIndexSetterBreaksRoundTrip(r: Residue, value: int)
    requires r.number.None?
    modifies r
    ensures r.Dict().index == Some(value) && r.Dict().number == None
    ensures !CanonicalResidue(r.Dict()) && ParsedResidue(r.Dict()) != r.Dict()
  {
    r.SetIndex(value);
    IndexSetterBreaksRoundTrip(r.Dict());
  }

  /** The `name` setter with a non-empty name on a chain whose author name is
      empty or missing: afterwards its `to_dict` mapping is one a rebuild
      would change. */
  method ChainNameSetterBreaksRoundTrip(c: Chain, value: string)
    requires value != "" && !Truthy(c.authName)
    modifies c
    ensures c.Dict().name == Some(value) && !Truthy(c.Dict().authName)
    ensures !CanonicalChain(c.Dict()) && ParsedChain(c.Dict()) != c.Dict()
  {
    c.SetName(Some(value));
    NameSetterBreaksRoundTrip(c.Dict());
  }

  /** Building a target from the mapping another target serialises to, then
      serialising it, reproduces that mapping whenever it is canonical; a
      target built from any mapping serialises canonically. */
  lemma RebuildReproduces(d: TargetDict)
    ensures CanonicalTarget(d) ==> ParsedTarget(d) == d
    ensures ParsedTarget(ParsedTarget(d)) == ParsedTarget(d)
  {
    ParsedTargetFixpoint(d);
    ParsedTargetIsCanonical(d);
  }
}
