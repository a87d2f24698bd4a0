# dash-molstar core, modelled in Dafny

This project models the Python side of the dash-molstar component. That side
builds the data structures and JSON-like payloads the Mol* viewer consumes.
It has three parts:

- **Target addressing** (`dash_molstar/utils/target.py`):
  - `Box`, `Sphere` and `Boundary` are geometric values. They are modelled
    as datatypes in module `Geometry`.
  - `Atom`, `Residue`, `Chain` and `Target` form a mutable hierarchy. Each
    is a Dafny `class` in module `Addressing`, with the same fields,
    validity flags, setters, lookups and in-place removals.
  - Module `TargetDicts` describes the plain dictionaries `Target` is
    built from and serialised to (`to_dict`), as datatypes with every key
    present.
- **Representations** (`dash_molstar/utils/representations.py`): module
  `Representations`.
  - The setters and `from_config` are specified by pure functions over a
    `Settings` value, checked against a whitelist `Schema`. The schema is
    the content of `representation_params.json`, passed in as a value.
  - The mutable `Representation` class is proved against those functions.
- **Payload helpers** (`dash_molstar/utils/molstar_helper.py`): module
  `MolstarHelper`. It covers format normalisation, URL format inference,
  and the box, target, component, selection and focus payloads.
  - JSON values are the `Json` datatype of module `Common`, which also
    holds `Option`, `Result` and the Python exceptions as an `Error`
    datatype.
  - Python truthiness is modelled explicitly (`Truthy`, `JsonTruthy`).

The main proved properties:

- **Lookups:**
  - `find_*` returns the first matching node in insertion order.
  - A miss returns a fresh blank sentinel.
  - An invalid node raises `ValueError`.
- **Removal:** `remove_*` deletes exactly the first match (or the given
  instance, found by identity) and reports whether it did. Removing the
  last chain invalidates the target.
- **Serialisation:** `to_dict` reproduces the parsed input.
  - Parsing a dictionary twice gives the same result as parsing it once.
  - A dictionary is a fixpoint of parsing exactly when it is canonical.
- **Boundary:** `Boundary` encloses every atom. Its box is the tight
  bounding box, and its sphere's radius reaches the farthest atom.
  `boundary` is computed once and cached.
- **Box and sphere:** over exact real numbers, `Sphere.to_box().to_sphere()`
  gives the sphere back, and `Box.to_sphere().to_box()` gives the box back
  exactly when the box is a cube. The source computes in IEEE doubles, where
  rounding can break both (see "## Left out").
- **Representation settings:** every setter keeps the settings inside the
  whitelist. `from_config(to_dict(r))` reproduces `r`'s serialisation.
- **Formats:** format normalisation is idempotent, and insensitive to case
  and to leading or trailing dots.

Some behaviours of the source are modelled as written, not as one might
expect:

- `Box.min_y` and `Box.min_z` return the x coordinate of the minimum corner.
- `parse_molecule` and `parse_url` refuse `mmcif`, the name they produce
  themselves for `cif`.
- `get_targets` drops residue `0`, because `if residue:` treats it as
  false.
- The setters can leave a node whose `to_dict` a rebuild would change.
  Setting the `index` of a residue without a number does this, and so does
  setting a non-empty `name` on a chain whose auth name is empty.
  `Addressing.ResidueIndexSetterBreaksRoundTrip` and
  `Addressing.ChainNameSetterBreaksRoundTrip` prove it through the setters
  themselves.

## Model

| member | source | states |
|---|---|---|
| Geometry.Box.Center | dash_molstar/utils/target.py:5-11 | The center exists exactly when both corners are given. It is then the per-axis midpoint of min and max. |
| Geometry.Box.Size | dash_molstar/utils/target.py:5-12 | The size exists exactly when both corners are given. It is then max minus min on each axis. |
| Geometry.BoxAccessors | dash_molstar/utils/target.py:38-108 | `min_y` and `min_z` both return the minimum corner's x (as written). The `max_*` accessors return the max corner's axes. `size_*` and `center_*` are None on an incomplete box. |
| Geometry.Box.ToSphere | dash_molstar/utils/target.py:110-115 | A sphere exists exactly for a complete box. It has the box's center, and its diameter is the largest side. |
| Geometry.SphereAccessors | dash_molstar/utils/target.py:134-168 | `radius_x`, `radius_y` and `radius_z` all equal the radius. `center_*` are the center's axes. |
| Geometry.Sphere.ToBox | dash_molstar/utils/target.py:170-175 | A box exists exactly for a complete sphere. It is centred on the sphere, with every side 2·radius. |
| Geometry.SphereBoxSphere | dash_molstar/utils/target.py:110-115 | For a complete sphere, `to_box().to_sphere()` returns the same sphere. |
| Geometry.BoxSphereBoxIffCube | dash_molstar/utils/target.py:110-115 | For a complete box, `to_sphere().to_box()` returns the box back if and only if all sides are equal. |
| Geometry.MinOf | dash_molstar/utils/target.py:183 | `np.min` of a non-empty column: a lower bound that is attained. |
| Geometry.MaxOf | dash_molstar/utils/target.py:184 | `np.max` of a non-empty column: an upper bound that is attained. |
| Geometry.BoundingBox | dash_molstar/utils/target.py:183-187 | The box of the per-axis minima and maxima is tight: every point lies inside, and each face touches some point. |
| Geometry.BoundaryOfPoints | dash_molstar/utils/target.py:183-188 | The boundary's box is tight. Its sphere is centred on the box center, and its squared radius is that of the farthest point. |
| Geometry.BoundaryOf | dash_molstar/utils/target.py:178-190 | Building a boundary fails with ValueError exactly when there are no coordinates or one is missing. Otherwise the boundary encloses all points. |
| TargetDicts.ParsedResidueFixpoint | dash_molstar/utils/target.py:256-265 | Re-parsing a residue dictionary changes nothing exactly when it has a number whenever it has an index, and its index-less atoms carry no name. |
| TargetDicts.ParsedChainFixpoint | dash_molstar/utils/target.py:373-393 | Re-parsing a chain dictionary changes nothing exactly when a truthy name comes with a truthy auth name, and its residues are canonical. |
| TargetDicts.ParsedTargetFixpoint | dash_molstar/utils/target.py:468-485 | Building a Target from a dictionary and serialising it gives the same dictionary exactly when the dictionary is canonical with `auth` false. |
| TargetDicts.ParsedTargetIsCanonical | dash_molstar/utils/target.py:571-601 | What `to_dict` returns is canonical. Rebuilding from it is idempotent. |
| TargetDicts.ParseIgnoresAuth | dash_molstar/utils/target.py:468-473 | The constructor sets `auth` to False whatever the input says. |
| TargetDicts.IndexSetterBreaksRoundTrip | dash_molstar/utils/target.py:256-265 | Every residue dictionary with an index and no number is non-canonical. A rebuild fills the number in from the index, so the dictionary changes. |
| TargetDicts.NameSetterBreaksRoundTrip | dash_molstar/utils/target.py:373-377 | Every chain dictionary with a non-empty name and an empty or missing auth name is non-canonical. A rebuild copies the name into the auth name, so the dictionary changes. |
| Addressing.IndexOf | dash_molstar/utils/target.py:360 | `list.index`: the first position of the element, and no earlier one. It equals the length when the element is absent. |
| Addressing.Atom.constructor | dash_molstar/utils/target.py:202-208 | An atom keeps its index, name and coordinates. It is valid exactly when it has an index. Its dictionary is the parsed input. |
| Addressing.Atom.SetName | dash_molstar/utils/target.py:219-221 | Only the name changes. Validity is untouched. |
| Addressing.Atom.SetIndex | dash_molstar/utils/target.py:228-241 | An integer index is stored and makes the atom valid. Nothing else changes. |
| Addressing.FirstNamed | dash_molstar/utils/target.py:348-350 | The position of the first atom whose visible name matches (invalid atoms read None), with no earlier match. |
| Addressing.AtomLookup | dash_molstar/utils/target.py:345-351 | There is a hit exactly when some atom's visible name matches. The hit is the first such atom. |
| Addressing.ValidOnlyMembers | dash_molstar/utils/target.py:426-429 | The filtered atoms are exactly the valid atoms of the list. |
| Addressing.CoordinatesOf | dash_molstar/utils/target.py:518 | One coordinate triple per atom, in order. |
| Addressing.Residue.constructor | dash_molstar/utils/target.py:256-278 | The number falls back to the index. The residue is valid exactly when it has a number or an index. One atom is built per dictionary, valid exactly when its dictionary has an index. The residue's dictionary is the parsed input. |
| Addressing.Residue.SetName | dash_molstar/utils/target.py:288-290 | Only the name changes. |
| Addressing.Residue.SetIndex | dash_molstar/utils/target.py:297-310 | An integer index is stored and makes the residue valid. Nothing else changes. |
| Addressing.Residue.SetNumber | dash_molstar/utils/target.py:317-330 | An integer number is stored and makes the residue valid. Nothing else changes. |
| Addressing.Residue.SetInsCode | dash_molstar/utils/target.py:336-339 | The insertion code is stored. Validity becomes its truthiness. |
| Addressing.Residue.FindAtom | dash_molstar/utils/target.py:345-351 | An invalid residue gives ValueError. Otherwise the result is the first atom with the name, or a fresh blank atom. |
| Addressing.Residue.AddAtom | dash_molstar/utils/target.py:353-355 | Exactly one fresh atom, built from the arguments, is appended. The old atoms and the residue's fields are unchanged. |
| Addressing.Residue.RemoveAtom | dash_molstar/utils/target.py:357-370 | By instance: the first identical atom is deleted, and the result says whether it was present. By name: the first atom with that name is deleted when it is valid. An invalid residue raises ValueError. |
| Addressing.Residue.ToDict | dash_molstar/utils/target.py:586-598 | The residue's part of `to_dict` is its current state with its atoms' dictionaries. |
| Addressing.FirstResidue | dash_molstar/utils/target.py:435-437 | The first residue whose visible number matches and whose insertion code (None read as '') equals the requested one, with no earlier match. |
| Addressing.ResidueLookup | dash_molstar/utils/target.py:432-438 | There is a hit exactly when some residue matches number and insertion code. The hit is the first such residue. |
| Addressing.AtomLookupInChain | dash_molstar/utils/target.py:440-446 | An atom is found only in a valid chain, and carries the requested name. |
| Addressing.ValidAtomsMembers | dash_molstar/utils/target.py:423-430 | `Chain.atoms` lists exactly the valid atoms of the chain's residues. |
| Addressing.ValidResiduesOnlyMembers | dash_molstar/utils/target.py:498-501 | The filtered residues are exactly the valid residues of the list. |
| Addressing.Chain.constructor | dash_molstar/utils/target.py:373-380 | The auth name defaults to a truthy chain name. The chain is valid exactly when either name is given. One residue is built per dictionary, valid exactly when its dictionary has a number or an index. The chain's dictionary is the parsed input. |
| Addressing.Chain.SetName | dash_molstar/utils/target.py:404-407 | The name is stored. Validity becomes its truthiness. |
| Addressing.Chain.SetAuthName | dash_molstar/utils/target.py:414-417 | The auth name is stored. Validity becomes its truthiness. |
| Addressing.Chain.ParseData | dash_molstar/utils/target.py:385-393 | On the still empty chain, one residue is appended per dictionary, in order. Each is valid exactly when its dictionary has a number or an index. The serialised residues are the parsed dictionaries. The chain's names and validity do not change. |
| Addressing.Chain.Atoms | dash_molstar/utils/target.py:423-430 | The loop returns exactly the valid atoms of all residues, in order. |
| Addressing.Chain.FindResidue | dash_molstar/utils/target.py:432-438 | An invalid chain gives ValueError. Otherwise the result is the first matching residue, or a fresh blank residue. |
| Addressing.Chain.FindAtom | dash_molstar/utils/target.py:440-446 | An invalid chain gives ValueError. Otherwise the result is the named atom of the first matching residue when that residue is valid, else a fresh blank atom. |
| Addressing.Chain.AddResidue | dash_molstar/utils/target.py:448-450 | Exactly one fresh residue is appended. It is valid exactly when a number or an index is given. The chain's serialised residues grow by the parsed dictionary of the arguments. |
| Addressing.Chain.RemoveResidue | dash_molstar/utils/target.py:452-465 | By instance: the first identical residue is deleted, and the result says whether it was present. By number: the first match is deleted when it is valid. An invalid chain raises ValueError. |
| Addressing.Chain.ToDict | dash_molstar/utils/target.py:576-599 | The chain's part of `to_dict` is its current state with its residues' dictionaries. |
| Addressing.FirstChain | dash_molstar/utils/target.py:525-527 | The first chain whose visible name matches, with no earlier match. |
| Addressing.ChainLookup | dash_molstar/utils/target.py:523-529 | There is a hit exactly when some chain's visible name matches. The hit is the first such chain. |
| Addressing.ValidResiduesMembers | dash_molstar/utils/target.py:495-502 | `Target.residues` lists exactly the valid residues of all chains. |
| Addressing.ValidAtomsOfChainsMembers | dash_molstar/utils/target.py:504-512 | `Target.atoms` lists exactly the valid atoms of all residues of all chains. |
| Addressing.Target.constructor | dash_molstar/utils/target.py:468-473 | A new target has `auth` False and no cached boundary. It builds one chain per dictionary, valid exactly when its dictionary has a name or an auth name. The target's dictionary is the parsed input. |
| Addressing.Target.Residues | dash_molstar/utils/target.py:495-502 | The nested loop returns exactly the valid residues, in order. |
| Addressing.Target.ParseData | dash_molstar/utils/target.py:478-485 | On the still empty target, one chain is appended per dictionary, in order. Each is valid exactly when its dictionary has a name or an auth name. The serialised chains are the parsed dictionaries. `auth` and the boundary cache do not change. |
| Addressing.Target.Atoms | dash_molstar/utils/target.py:504-512 | The nested loop returns exactly the valid atoms, in order. |
| Addressing.Target.GetBoundary | dash_molstar/utils/target.py:514-521 | An invalid target raises ValueError. A cached boundary is returned unchanged. Otherwise the boundary of the valid atoms' coordinates is computed and cached. |
| Addressing.Target.FindChain | dash_molstar/utils/target.py:523-529 | An invalid target gives ValueError. Otherwise the result is the first chain with the name, or a fresh default chain. |
| Addressing.Target.FindResidue | dash_molstar/utils/target.py:531-537 | An invalid target gives ValueError. Otherwise the result is the matching residue of the first named chain when that chain is valid, else a fresh blank residue. |
| Addressing.Target.FindAtom | dash_molstar/utils/target.py:539-545 | An invalid target gives ValueError. Otherwise the result is what the first named chain's `find_atom` finds, or a fresh blank atom. |
| Addressing.Target.FindAtomInChain | dash_molstar/utils/target.py:544 | The delegated `chain.find_atom`: the atom found in the chain, or a fresh blank atom. |
| Addressing.Target.AddChain | dash_molstar/utils/target.py:547-550 | Exactly one fresh chain is appended. It is valid exactly when a name or an auth name is given, and the chains already held keep their validity. The serialised chains grow by the parsed dictionary of the arguments, and the target becomes valid. |
| Addressing.Target.RemoveChain | dash_molstar/utils/target.py:552-569 | By instance or by name, the first match is deleted (by name, only when it is valid). The result says whether one was deleted. A missing name raises ValueError (the default chain `find_chain` returns is valid, but not in the list), and so does an invalid target. Deleting the last chain invalidates the target. |
| Addressing.Target.ToDict | dash_molstar/utils/target.py:571-601 | `to_dict` is the target's current state, chains, residues and atoms, in order. |
| Addressing.RebuildReproduces | dash_molstar/utils/target.py:571-601 | A canonical dictionary survives construction followed by `to_dict`, and a second rebuild changes nothing. |
| Addressing.ResidueIndexSetterBreaksRoundTrip | dash_molstar/utils/target.py:297-310 | Calling the `index` setter on a residue without a number leaves a `to_dict` with that index and no number, which is non-canonical, so a rebuild changes it. |
| Addressing.ChainNameSetterBreaksRoundTrip | dash_molstar/utils/target.py:404-407 | Calling the `name` setter with a non-empty name on a chain whose auth name is empty leaves a `to_dict` that is non-canonical, so a rebuild changes it. |
| Representations.WithType | dash_molstar/utils/representations.py:35-41 | The type is accepted exactly when it is whitelisted, else ValueError. Setting it resets the type parameters and keeps the settings valid. |
| Representations.WithColor | dash_molstar/utils/representations.py:47-53 | The colour is accepted exactly when it is None or whitelisted, else ValueError. Setting it resets the colour parameters and keeps the settings valid. |
| Representations.WithSize | dash_molstar/utils/representations.py:59-65 | The size is accepted exactly when it is None or whitelisted, else ValueError. Setting it resets the size parameters and keeps the settings valid. |
| Representations.Merged | dash_molstar/utils/representations.py:83-88 | Whitelisted keys of the new parameters overwrite the old ones, other keys are ignored, and the whitelist is kept. |
| Representations.MergedIdempotent | dash_molstar/utils/representations.py:83-88 | Applying the same parameters twice equals applying them once. |
| Representations.MergedIntoEmpty | dash_molstar/utils/representations.py:83-88 | Whitelisted parameters merged into an empty map come back unchanged. |
| Representations.WithTypeParams | dash_molstar/utils/representations.py:67-69 | A type without a parameter whitelist raises KeyError. A non-mapping raises AttributeError. Otherwise the parameters are merged, and validity is kept. |
| Representations.WithColorParams | dash_molstar/utils/representations.py:71-75 | An unset colour raises ValueError, then a missing whitelist KeyError, then a non-mapping AttributeError. Otherwise the parameters are merged, and validity is kept. |
| Representations.WithSizeParams | dash_molstar/utils/representations.py:77-81 | An unset size raises ValueError, then a missing whitelist KeyError, then a non-mapping AttributeError. Otherwise the parameters are merged, and validity is kept. |
| Representations.Created | dash_molstar/utils/representations.py:6-20 | The constructor succeeds exactly when the type is whitelisted and each truthy colour and size is whitelisted. The result is valid, with empty parameters. |
| Representations.Serialized | dash_molstar/utils/representations.py:108-128 | `to_dict` always has the type. Parameters appear only when non-empty, and colour or size parameters only under a truthy colour or size. Every value is the setting's. |
| Representations.Configured | dash_molstar/utils/representations.py:144-175 | A successfully loaded configuration yields settings within the whitelist. |
| Representations.SerializedEmitted | dash_molstar/utils/representations.py:108-128 | Dropping what `to_dict` omits does not change the serialisation. |
| Representations.ConfiguredSerialized | dash_molstar/utils/representations.py:144-175 | Loading the `to_dict` of valid settings succeeds and yields those settings, minus what `to_dict` omits. |
| Representations.ConfiguredRoundTrip | dash_molstar/utils/representations.py:144-175 | `from_config` of `to_dict` succeeds and serialises to the same dictionary. |
| Representations.Representation.Init | dash_molstar/utils/representations.py:6-14 | The fields start as the defaults: type cartoon, no colour or size, empty parameters. |
| Representations.Representation.Create | dash_molstar/utils/representations.py:6-20 | The constructor fails or succeeds as `Created` says, and a new object holds the created settings. |
| Representations.Representation.SetType | dash_molstar/utils/representations.py:35-41 | On success the state is the new settings. On error the state is unchanged and the error is reported. |
| Representations.Representation.SetColor | dash_molstar/utils/representations.py:47-53 | On success the state is the new settings. On error the state is unchanged and the error is reported. |
| Representations.Representation.SetSize | dash_molstar/utils/representations.py:59-65 | On success the state is the new settings. On error the state is unchanged and the error is reported. |
| Representations.Representation.SetParams | dash_molstar/utils/representations.py:83-88 | The loop's result is the merge. The warned-about keys are exactly the non-whitelisted ones. |
| Representations.Representation.SetTypeParams | dash_molstar/utils/representations.py:67-69 | The state follows `WithTypeParams`. An error leaves it unchanged. |
| Representations.Representation.SetColorParams | dash_molstar/utils/representations.py:71-75 | The state follows `WithColorParams`. An error leaves it unchanged. |
| Representations.Representation.SetSizeParams | dash_molstar/utils/representations.py:77-81 | The state follows `WithSizeParams`. An error leaves it unchanged. |
| Representations.Representation.ToDict | dash_molstar/utils/representations.py:108-128 | The dictionary always carries the current type. |
| Representations.Representation.FromConfig | dash_molstar/utils/representations.py:144-175 | Loading fails or succeeds as `Configured` says, and a new object holds the loaded settings. |
| MolstarHelper.StripDots | dash_molstar/utils/molstar_helper.py:52 | `strip('.')` shortens the string and leaves no dot at either end. |
| MolstarHelper.StripDotsSlice | dash_molstar/utils/molstar_helper.py:52 | The stripped string is a contiguous slice of the input, and only dots are cut. |
| MolstarHelper.StripDotsIdempotent | dash_molstar/utils/molstar_helper.py:52 | Stripping twice equals stripping once. |
| MolstarHelper.Lower | dash_molstar/utils/molstar_helper.py:52 | `lower()` keeps the length and lowercases each character. |
| MolstarHelper.LowerIdempotent | dash_molstar/utils/molstar_helper.py:52 | Lowercasing twice equals lowercasing once. |
| MolstarHelper.LowerStripCommute | dash_molstar/utils/molstar_helper.py:52 | Stripping dots and lowercasing commute. |
| MolstarHelper.NormalizeFormat | dash_molstar/utils/molstar_helper.py:51-56 | The format is accepted exactly when it is truthy and its normalised form is supported. It is then renamed (cif to mmcif, cifcore to cifCore). Otherwise RuntimeError. |
| MolstarHelper.NormalizedIdempotent | dash_molstar/utils/molstar_helper.py:52 | Normalising twice equals normalising once. |
| MolstarHelper.NormalizeIgnoresCaseAndDots | dash_molstar/utils/molstar_helper.py:51-56 | A format and its normalised form are accepted or refused alike, with the same result. |
| MolstarHelper.CifRenamed | dash_molstar/utils/molstar_helper.py:52-55 | ".CIF" is accepted as mmcif. |
| MolstarHelper.MmcifNotReaccepted | dash_molstar/utils/molstar_helper.py:53-54 | "mmcif", the name the helper itself emits, is refused with RuntimeError. |
| MolstarHelper.RFind | dash_molstar/utils/molstar_helper.py:96-97 | The last occurrence of a character, or -1. |
| MolstarHelper.SplitExt | dash_molstar/utils/molstar_helper.py:96-97 | `splitext` splits the path into root and extension that concatenate back to it. The extension is empty or one dot and a dot-free, slash-free tail. |
| MolstarHelper.WithComponent | dash_molstar/utils/molstar_helper.py:62 | A truthy component is added under "component". Otherwise the payload is unchanged. |
| MolstarHelper.ParseMolecule | dash_molstar/utils/molstar_helper.py:6-63 | Fails with RuntimeError exactly when the format is refused. Otherwise a `mol` payload with the data, the normalised format and a truthy component. |
| MolstarHelper.UrlFormat | dash_molstar/utils/molstar_helper.py:95-97 | The given format when truthy, else the extension of the URL path. |
| MolstarHelper.ParseUrl | dash_molstar/utils/molstar_helper.py:65-114 | Fails with RuntimeError exactly when the (inferred) format is not in the structure or snapshot list. Otherwise a `url` payload with `urlfor`, data, format and a truthy component. |
| MolstarHelper.SnapshotFormatsUnrenamed | dash_molstar/utils/molstar_helper.py:101-106 | Snapshot formats are never renamed, and none is a structure format. |
| MolstarHelper.GetBox | dash_molstar/utils/molstar_helper.py:116-154 | The box payload is built exactly when both corners have length 3. A `len` of a scalar raises TypeError, a wrong length ValueError, min checked first. |
| MolstarHelper.DefaultBoxAccepted | dash_molstar/utils/molstar_helper.py:116 | The default arguments give a box payload. |
| MolstarHelper.Collected | dash_molstar/utils/molstar_helper.py:181-188 | An int is kept. A string is evaluated: a SyntaxError keeps the string, and any other exception (NameError for a bare name) propagates as the result's error. Anything else is dropped. |
| MolstarHelper.ResidueNumbers | dash_molstar/utils/molstar_helper.py:180-189 | The list never grows. It keeps its length exactly when every entry is an int or a string. It fails exactly when some string's evaluation raises. |
| MolstarHelper.Combined | dash_molstar/utils/molstar_helper.py:180-189 | Concatenation of per-item results, failing when either part fails. |
| MolstarHelper.Filter | dash_molstar/utils/molstar_helper.py:182-183 | Keeps only ints and strings. |
| MolstarHelper.ResidueNumbersDropsOthers | dash_molstar/utils/molstar_helper.py:181-188 | Entries that are neither int nor string do not affect the result. |
| MolstarHelper.ResidueNumbersOfInts | dash_molstar/utils/molstar_helper.py:181-182 | A list of ints is returned unchanged. |
| MolstarHelper.GetTargets | dash_molstar/utils/molstar_helper.py:159-190 | Always the chain and auth. Residue numbers appear exactly when the residue argument is truthy, as the collected list of the argument (a scalar is wrapped). |
| MolstarHelper.AsList | dash_molstar/utils/molstar_helper.py:227 | A list is kept, anything else is wrapped in a one-element list. |
| MolstarHelper.AsListIdempotent | dash_molstar/utils/molstar_helper.py:227 | Wrapping twice equals wrapping once. |
| MolstarHelper.SingleResidue | dash_molstar/utils/molstar_helper.py:176-190 | A single non-zero residue number gives a one-element residue list. |
| MolstarHelper.BareResidueNameRaises | dash_molstar/utils/molstar_helper.py:183-188 | When `eval("ALA")` raises NameError, `get_targets` with residue "ALA" fails with that NameError. |
| MolstarHelper.CreateComponent | dash_molstar/utils/molstar_helper.py:192-232 | Accepted exactly when the lowercased representation is one of the 14 names, else RuntimeError. The payload carries the label, the targets as a list and the lowercased name. |
| MolstarHelper.GetSelection | dash_molstar/utils/molstar_helper.py:234-266 | The mode is select exactly when `select`, else hover. The modifier is add exactly when `add`, else set. The targets are a list. |
| MolstarHelper.GetFocus | dash_molstar/utils/molstar_helper.py:268-288 | The targets as a list, and `analyse` passed through. |

## Left out

- Floating point: Atom coordinates are rounded to six decimals (`round(x, 6)`). The model keeps them as given reals.
- Geometry: `Box.Center`, `Box.Size`, `Box.ToSphere`, `Sphere.ToBox` and `BoundaryOf` compute over exact reals, not IEEE doubles. `SphereBoxSphere` and `BoxSphereBoxIffCube` are facts about this real-valued model. In doubles they can fail: center 0.1 with radius 0.2 gives a box whose maximum is 0.30000000000000004, and that box's center is 0.10000000000000002.
- List aliasing: the getters `Residue.atoms` (target.py:342-343), `Chain.residues` (target.py:420-421) and `Target.chains` (target.py:492-493) return the node's live list. The model's `seq` fields are values, so a list read earlier does not show later `add_*`/`remove_*` calls. A change made through the returned list (for example `t.chains.clear()`, which leaves `valid` True and breaks `Inv()`) is not captured.
- `find_residue` with `ins_code=None`: the model's insertion code is a `string`. In the source, `None` never matches, because `(residue.ins_code or "")` is a string. The model does not cover that call.
- Geometry.BoundaryOf: the sphere's radius is kept squared, because the real square root behind `np.linalg.norm` is not modelled. The contract states the farthest-point property on squared distances.
- Geometry.BoundaryOf: coordinate arrays that numpy would reject for their shape are modelled by a missing coordinate (`AllPresent`). Any other failure inside numpy is not modelled.
- Addressing.Atom.SetIndex: only the integer path is modelled. A string is parsed with `int()` and raises ValueError when it does not parse, and any other type raises TypeError. Python's integer parsing is not modelled.
- Addressing.Residue.SetIndex: only the integer path is modelled, as for atoms.
- Addressing.Residue.SetNumber: only the integer path is modelled, as for atoms.
- Missing keys in the input dictionaries (`.get` with a default) are not modelled. The dictionaries carry every key, with `None` as an absent value.
- The `Boundary` cache test `if not self.__boundary` is modelled as "no boundary yet". A `Boundary` object has no `__len__` or `__bool__`, so it is always truthy.
- The `__len__` methods of `Residue`, `Chain` and `Target` are not separate members. Their one use in the core, the truthiness test `if residue` in `Chain.find_atom`, is modelled inline as a test that the residue holds at least one atom.
- `to_dict` of Target, Chain and Residue returns fresh dictionaries. The model does not capture the Python result sharing the node's name strings (immutable, so harmless).
- Representations: reading `representation_params.json` from disk is not modelled. Its content is the `Schema` parameter.
- Representation.save_config: file writing is not modelled.
- Representation.np: builds a `NamedParams` payload from a name and parameters. It is a payload helper outside the core.
- Representation.from_config: `json.load` is not modelled. The loaded mapping is the parameter.
- Representations.Representation.SetParams: the warning `print` is returned as the set of ignored keys instead.
- Representations.Representation.ToDict: the Python result holds the live `_type_params`, `_color_params` and `_size_params` dictionaries. A later `set_*_params` call then changes a dictionary returned earlier, and a caller writing into it changes the representation and bypasses the whitelist. The model returns a value, so this sharing is not captured.
- Representations.Representation.ToDict: states only the type key. The full shape is the contract of `Serialized`, which `ToDict` returns for the current state.
- MolstarHelper.ParseMolecule: the file path, stream and bytes branches of `parse_molecule` are not modelled. The data arrives as a string, and the format is the given one or the file's extension.
- MolstarHelper.ParseUrl: `urlparse` is not modelled. The URL's path component is a parameter.
- MolstarHelper.GetTargets: Python's `eval` is not modelled. The evaluation of residue strings is the function parameter `eval`.
- MolstarHelper.Lower: models ASCII `lower()` only. Non-ASCII case mapping is not modelled.
- `get_sphere` has an empty body (returns None). There is nothing to model.
- The `__main__` demonstration blocks are not modelled.
