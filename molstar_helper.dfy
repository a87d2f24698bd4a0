/** The payload builders: the mappings the viewer component receives for a
    molecule, a URL, a box shape, a selection target, a component, a selection
    and a camera focus. Each maps its arguments to a fresh mapping or raises. */
module MolstarHelper {
  import opened Common

  /** A payload: a Python dict with string keys. */
  type Payload = map<string, Json>

  /** The structure formats the viewer reads. */
  const StructureFormats: seq<string> := ["cif", "cifcore", "pdb", "pdbqt", "gro", "xyz", "mol", "sdf", "mol2"]

  /** The state and session formats the viewer reads. */
  const SnapshotFormats: seq<string> := ["json", "molj", "molx", "zip"]

  /** The representation names a component may ask for. */
  const RepresentationNames: seq<string> := [
    "label", "line", "cartoon", "backbone", "ball-and-stick", "carbohydrate",
    "ellipsoid", "gaussian-surface", "gaussian-volume", "molecular-surface",
    "orientation", "point", "putty", "spacefill"]

  // String helpers.

  /** `s.lstrip('.')`. */
  function StripLeadingDots(s: string): (r: string)
    ensures |r| <= |s| && r == s[|s| - |r|..]
    ensures forall k :: 0 <= k < |s| - |r| ==> s[k] == '.'
    ensures r == [] || r[0] != '.'
  {
    if s != [] && s[0] == '.' then StripLeadingDots(s[1..]) else s
  }

  /** `s.rstrip('.')`. */
  function StripTrailingDots(s: string): (r: string)
    ensures |r| <= |s| && r == s[..|r|]
    ensures forall k :: |r| <= k < |s| ==> s[k] == '.'
    ensures r == [] || r[|r| - 1] != '.'
  {
    if s != [] && s[|s| - 1] == '.' then StripTrailingDots(s[..|s| - 1]) else s
  }

  /** `s.strip('.')`: the dots at both ends removed, nothing else. */
  function StripDots(s: string): (r: string)
    ensures |r| <= |s|
    ensures r == [] || (r[0] != '.' && r[|r| - 1] != '.')
  {
    StripTrailingDots(StripLeadingDots(s))
  }

  /** `strip` removes dots and only dots: what it returns is a slice of the
      input with nothing but dots before and after it. */
  lemma StripDotsSlice(s: string)
    ensures var r := StripDots(s); var i := |s| - |StripLeadingDots(s)|;
      && i + |r| <= |s| && r == s[i..i + |r|]
      && (forall k :: 0 <= k < i ==> s[k] == '.')
      && (forall k :: i + |r| <= k < |s| ==> s[k] == '.')
  {
    var lead := StripLeadingDots(s);
    var r := StripTrailingDots(lead);
    var i := |s| - |lead|;
    assert lead == s[i..];
    assert r == lead[..|r|];
    forall k | i + |r| <= k < |s| ensures s[k] == '.' {
      assert s[k] == lead[k - i];
    }
  }

  /** Lower case of one character (ASCII letters only). */
  function LowerChar(c: char): (d: char)
    ensures 'A' <= c <= 'Z' ==> 'a' <= d <= 'z'
    ensures !('A' <= c <= 'Z') ==> d == c
  {
    if 'A' <= c <= 'Z' then (c as int + 32) as char else c
  }

  /** `s.lower()` on ASCII text. */
  function Lower(s: string): (r: string)
    ensures |r| == |s|
    ensures forall k :: 0 <= k < |s| ==> r[k] == LowerChar(s[k])
  {
    seq(|s|, k requires 0 <= k < |s| => LowerChar(s[k]))
  }

  /** Lower-casing twice is lower-casing once. */
  lemma LowerIdempotent(s: string)
    ensures Lower(Lower(s)) == Lower(s)
  {
    forall k | 0 <= k < |s| ensures Lower(Lower(s))[k] == Lower(s)[k] {
      assert Lower(s)[k] == LowerChar(s[k]);
    }
  }

  lemma {:induction false} LowerStripLeading(s: string)
    ensures Lower(StripLeadingDots(s)) == StripLeadingDots(Lower(s))
    decreases |s|
  {
    if s != [] && s[0] == '.' {
      assert Lower(s)[1..] == Lower(s[1..]);
      LowerStripLeading(s[1..]);
    }
  }

  lemma {:induction false} LowerStripTrailing(s: string)
    ensures Lower(StripTrailingDots(s)) == StripTrailingDots(Lower(s))
    decreases |s|
  {
    if s != [] && s[|s| - 1] == '.' {
      assert Lower(s)[..|s| - 1] == Lower(s[..|s| - 1]);
      LowerStripTrailing(s[..|s| - 1]);
    }
  }

  /** Stripping the dots and lower-casing commute: a dot has no case. */
  lemma LowerStripCommute(s: string)
    ensures Lower(StripDots(s)) == StripDots(Lower(s))
  {
    LowerStripLeading(s);
    LowerStripTrailing(StripLeadingDots(s));
  }

  /** The renaming applied after the whitelist: `cif` to `mmcif` and
      `cifcore` to `cifCore`. */
  function Renamed(fmt: string): string {
    if fmt == "cif" then "mmcif" else if fmt == "cifcore" then "cifCore" else fmt
  }

  /** The format check shared by `parse_molecule` and `parse_url`: a missing
      or empty format raises, the format is stripped of dots and lower-cased,
      must be in `allowed`, and is renamed. */
  function NormalizeFormat(fmt: Option<string>, allowed: seq<string>): (r: Result<string>)
    ensures r.Err? ==> r.error == RuntimeError
    ensures r.Ok? <==> Truthy(fmt) && Normalized(fmt.value) in allowed
    ensures r.Ok? ==> r.value == Renamed(Normalized(fmt.value))
  {
    if !Truthy(fmt) then Err(RuntimeError)
    else
      var f := Normalized(fmt.value);
      if f !in allowed then Err(RuntimeError) else Ok(Renamed(f))
  }

  /** `fmt.strip('.').lower()`. */
  function Normalized(fmt: string): (r: string)
    ensures |r| <= |fmt|
  {
    Lower(StripDots(fmt))
  }

  /** Normalizing a normalized format changes nothing. */
  lemma NormalizedIdempotent(fmt: string)
    ensures Normalized(Normalized(fmt)) == Normalized(fmt)
  {
    var g := StripDots(fmt);
    LowerStripCommute(g);
    StripDotsIdempotent(fmt);
    LowerIdempotent(g);
  }

  /** `.CIF` is accepted as `cif` and emitted as `mmcif`. */
  lemma CifRenamed()
    ensures NormalizeFormat(Some(".CIF"), StructureFormats) == Ok("mmcif")
  {
    assert ".CIF"[1..] == "CIF";
    assert StripLeadingDots("CIF") == "CIF";
    assert StripTrailingDots("CIF") == "CIF";
    var lowered := Lower("CIF");
    assert lowered[0] == 'c' && lowered[1] == 'i' && lowered[2] == 'f';
    assert lowered == "cif";
  }

  /** The format a structure payload carries is not accepted back: `mmcif`
      is not in the whitelist. */
  lemma MmcifNotReaccepted()
    ensures NormalizeFormat(Some("mmcif"), StructureFormats) == Err(RuntimeError)
  {
    assert StripLeadingDots("mmcif") == "mmcif";
    assert StripTrailingDots("mmcif") == "mmcif";
    var lowered := Lower("mmcif");
    assert lowered[0] == 'm' && lowered[1] == 'm' && lowered[2] == 'c' && lowered[3] == 'i' && lowered[4] == 'f';
    assert lowered == "mmcif";
    assert "mmcif" !in StructureFormats;
  }

  /** The case and the surrounding dots of a format do not matter. */
  lemma NormalizeIgnoresCaseAndDots(fmt: string, allowed: seq<string>)
    requires Normalized(fmt) != ""
    ensures NormalizeFormat(Some(Normalized(fmt)), allowed) == NormalizeFormat(Some(fmt), allowed)
  {
    NormalizedIdempotent(fmt);
  }

  lemma StripDotsIdempotent(s: string)
    ensures StripDots(StripDots(s)) == StripDots(s)
  {
    var r := StripDots(s);
    assert StripLeadingDots(r) == r;
    assert StripTrailingDots(r) == r;
  }

  /** The last index of `c` in `s`, or -1 (`str.rfind`). */
  function RFind(s: string, c: char): (k: int)
    ensures -1 <= k < |s|
    ensures k >= 0 ==> s[k] == c
    ensures forall j :: k < j < |s| ==> s[j] != c
  {
    if s == [] then -1
    else if s[|s| - 1] == c then |s| - 1
    else RFind(s[..|s| - 1], c)
  }

  /** `os.path.splitext` on a POSIX path: the extension runs from the last
      dot of the last path component, unless every character of that
      component before the dot is a dot. */
  function SplitExt(p: string): (r: (string, string))
    ensures r.0 + r.1 == p
    ensures r.1 == "" || (r.1[0] == '.' && forall k :: 0 < k < |r.1| ==> r.1[k] != '.' && r.1[k] != '/')
  {
    var sepIndex := RFind(p, '/');
    var dotIndex := RFind(p, '.');
    if dotIndex > sepIndex && exists k :: sepIndex + 1 <= k < dotIndex && p[k] != '.' then
      (p[..dotIndex], p[dotIndex..])
    else
      (p, "")
  }

  // The payloads.

  /** `if component: d['component'] = component`. */
  function WithComponent(d: Payload, component: Json): (r: Payload)
    ensures "component" in r <==> "component" in d || JsonTruthy(component)
    ensures JsonTruthy(component) ==> r == d["component" := component]
    ensures !JsonTruthy(component) ==> r == d
  {
    if JsonTruthy(component) then d["component" := component] else d
  }

  /** `parse_molecule` once the data is in hand: `data` is the content (read
      from the file, the stream, or given), `fmt` the format (given, or
      inferred from the file name). */
  function ParseMolecule(data: string, fmt: Option<string>, component: Json): (r: Result<Payload>)
    ensures r.Err? <==> NormalizeFormat(fmt, StructureFormats).Err?
    ensures r.Err? ==> r.error == RuntimeError
    ensures r.Ok? ==>
      && r.value.Keys == {"type", "data", "format"} + (if JsonTruthy(component) then {"component"} else {})
      && r.value["type"] == JStr("mol")
      && r.value["data"] == JStr(data)
      && r.value["format"] == JStr(NormalizeFormat(fmt, StructureFormats).value)
      && (JsonTruthy(component) ==> r.value["component"] == component)
  {
    match NormalizeFormat(fmt, StructureFormats)
    case Err(e) => Err(e)
    case Ok(f) => Ok(WithComponent(map["type" := JStr("mol"), "data" := JStr(data), "format" := JStr(f)], component))
  }

  /** The format `parse_url` checks: the one given, else the extension of the
      URL's path. */
  function UrlFormat(path: string, fmt: Option<string>): (r: Option<string>)
    ensures Truthy(fmt) ==> r == fmt
    ensures !Truthy(fmt) ==> r == Some(SplitExt(path).1)
  {
    if Truthy(fmt) then fmt else Some(SplitExt(path).1)
  }

  /** `parse_url`: `path` is the path part of `url` as `urlparse` splits it.
      A structure URL (`mol`) takes the structure formats, a state or session
      URL the snapshot formats. */
  function ParseUrl(url: string, path: string, fmt: Option<string>, component: Json, mol: bool): (r: Result<Payload>)
    ensures r.Err? <==> NormalizeFormat(UrlFormat(path, fmt), if mol then StructureFormats else SnapshotFormats).Err?
    ensures r.Err? ==> r.error == RuntimeError
    ensures r.Ok? ==>
      && r.value.Keys == {"type", "urlfor", "data", "format"} + (if JsonTruthy(component) then {"component"} else {})
      && r.value["type"] == JStr("url")
      && r.value["urlfor"] == JStr(if mol then "mol" else "snapshot")
      && r.value["data"] == JStr(url)
      && r.value["format"] ==
           JStr(NormalizeFormat(UrlFormat(path, fmt), if mol then StructureFormats else SnapshotFormats).value)
      && (JsonTruthy(component) ==> r.value["component"] == component)
  {
    var allowed := if mol then StructureFormats else SnapshotFormats;
    match NormalizeFormat(UrlFormat(path, fmt), allowed)
    case Err(e) => Err(e)
    case Ok(f) =>
      var urlfor := if mol then "mol" else "snapshot";
      Ok(WithComponent(map["type" := JStr("url"), "urlfor" := JStr(urlfor), "data" := JStr(url), "format" := JStr(f)], component))
  }

  /** A snapshot URL never takes a structure format, so `cif` is never renamed there. */
  lemma SnapshotFormatsUnrenamed(f: string)
    requires f in SnapshotFormats
    ensures Renamed(f) == f && f !in StructureFormats
  {
  }

  /** `get_box`: both corners must have length 3 (a value without a length
      raises TypeError from `len`); the arguments are returned as they came. */
  function GetBox(minXyz: Json, maxXyz: Json, radius: Json, boxLabel: Json, color: Json): (r: Result<Payload>)
    ensures r.Ok? <==> JsonLen(minXyz) == Ok(3) && JsonLen(maxXyz) == Ok(3)
    ensures r.Err? ==>
      r.error == (if JsonLen(minXyz).Err? then TypeError
                  else if JsonLen(minXyz) != Ok(3) then ValueError
                  else if JsonLen(maxXyz).Err? then TypeError
                  else ValueError)
    ensures r.Ok? ==> r.value == map[
      "type" := JStr("shape"), "shape" := JStr("box"), "min" := minXyz, "max" := maxXyz,
      "radius" := radius, "label" := boxLabel, "color" := color]
  {
    match JsonLen(minXyz)
    case Err(e) => Err(e)
    case Ok(n) =>
      if n != 3 then Err(ValueError)
      else
        match JsonLen(maxXyz)
        case Err(e) => Err(e)
        case Ok(m) =>
          if m != 3 then Err(ValueError)
          else Ok(map["type" := JStr("shape"), "shape" := JStr("box"), "min" := minXyz, "max" := maxXyz,
                      "radius" := radius, "label" := boxLabel, "color" := color])
  }

  /** The default arguments of `get_box` make a unit box. */
  lemma DefaultBoxAccepted()
    ensures GetBox(JTuple([JInt(0), JInt(0), JInt(0)]), JTuple([JInt(1), JInt(1), JInt(1)]),
                   JNum(0.1), JStr("Bounding Box"), JStr("red")).Ok?
  {
  }

  /** What `eval` of a residue string gives: a value, a SyntaxError (caught,
      and the string kept), or another exception (which propagates). */
  datatype EvalOutcome = Value(v: Json) | SyntaxError | Raised(error: Error)

  /** What one entry contributes: an int itself, a string its `eval` value
      or, on a SyntaxError, itself; any other entry nothing. */
  function Collected(item: Json, eval: string -> EvalOutcome): (r: Result<seq<Json>>)
    ensures r.Err? <==> item.JStr? && eval(item.s).Raised?
    ensures r.Err? ==> r.error == eval(item.s).error
    ensures r.Ok? ==> |r.value| == (if Kept(item) then 1 else 0)
  {
    match item
    case JInt(_) => Ok([item])
    case JStr(s) => (
      match eval(s)
      case Value(v) => Ok([v])
      case SyntaxError => Ok([item])
      case Raised(e) => Err(e))
    case _ => Ok([])
  }

  /** The residue numbers `get_targets` collects from `items`, in order: ints
      as they are, strings through `eval`, everything else dropped. */
  function ResidueNumbers(items: seq<Json>, eval: string -> EvalOutcome): (r: Result<seq<Json>>)
    ensures r.Ok? ==> |r.value| <= |items|
    ensures r.Ok? ==> (|r.value| == |items| <==> forall k :: 0 <= k < |items| ==> Kept(items[k]))
    ensures r.Err? <==> exists k :: 0 <= k < |items| && items[k].JStr? && eval(items[k].s).Raised?
  {
    if items == [] then Ok([])
    else
      assert forall k :: 1 <= k < |items| ==> items[k] == items[1..][k - 1];
      Combined(Collected(items[0], eval), ResidueNumbers(items[1..], eval))
  }

  /** The first exception, or both contributions in order. */
  function Combined(head: Result<seq<Json>>, tail: Result<seq<Json>>): (r: Result<seq<Json>>)
    ensures r.Err? <==> head.Err? || tail.Err?
    ensures r.Ok? ==> r.value == head.value + tail.value
  {
    match head
    case Err(e) => Err(e)
    case Ok(h) =>
      match tail
      case Err(e) => Err(e)
      case Ok(t) => Ok(h + t)
  }

  /** Ints and strings only: what `ResidueNumbers` does not drop. */
  predicate Kept(j: Json) {
    j.JInt? || j.JStr?
  }

  /** Entries that are neither int nor str make no difference. */
  lemma {:induction false} ResidueNumbersDropsOthers(items: seq<Json>, eval: string -> EvalOutcome)
    ensures ResidueNumbers(items, eval) == ResidueNumbers(Filter(items), eval)
  {
    if items != [] {
      ResidueNumbersDropsOthers(items[1..], eval);
      if Kept(items[0]) {
        var f := Filter(items);
        assert f[0] == items[0] && f[1..] == Filter(items[1..]);
        assert ResidueNumbers(f, eval) == Combined(Collected(items[0], eval), ResidueNumbers(f[1..], eval));
      } else {
        assert Filter(items) == Filter(items[1..]);
        var rest := ResidueNumbers(items[1..], eval);
        assert ResidueNumbers(items, eval) == Combined(Ok([]), rest);
        if rest.Ok? {
          assert [] + rest.value == rest.value;
        }
      }
    }
  }

  /** The entries of `items` that are ints or strings, in order. */
  function Filter(items: seq<Json>): (r: seq<Json>)
    ensures |r| <= |items|
    ensures forall k :: 0 <= k < |r| ==> Kept(r[k])
  {
    if items == [] then [] else if Kept(items[0]) then [items[0]] + Filter(items[1..]) else Filter(items[1..])
  }

  /** A list of ints is kept whole and in order. */
  lemma {:induction false} ResidueNumbersOfInts(items: seq<Json>, eval: string -> EvalOutcome)
    requires forall k :: 0 <= k < |items| ==> items[k].JInt?
    ensures ResidueNumbers(items, eval) == Ok(items)
  {
    if items != [] {
      ResidueNumbersOfInts(items[1..], eval);
      assert [items[0]] + items[1..] == items;
    }
  }

  /** `get_targets`: the chain name and `auth` always; the residue numbers
      only for a truthy `residue` (so 0 and [] select the whole chain), with
      a value that is not a list taken as a one-element list. */
  function GetTargets(chain: Json, residue: Json, auth: Json, eval: string -> EvalOutcome): (r: Result<Payload>)
    ensures r.Err? ==> JsonTruthy(residue)
    ensures r.Ok? ==>
      && r.value.Keys == {"chain_name", "auth"} + (if JsonTruthy(residue) then {"residue_numbers"} else {})
      && r.value["chain_name"] == chain
      && r.value["auth"] == auth
    ensures JsonTruthy(residue) ==> (r.Err? <==> ResidueNumbers(AsList(residue), eval).Err?)
    ensures r.Ok? && JsonTruthy(residue) ==>
      r.value["residue_numbers"] == JList(ResidueNumbers(AsList(residue), eval).value)
  {
    var target := map["chain_name" := chain, "auth" := auth];
    if !JsonTruthy(residue) then Ok(target)
    else
      match ResidueNumbers(AsList(residue), eval)
      case Err(e) => Err(e)
      case Ok(numbers) => Ok(target["residue_numbers" := JList(numbers)])
  }

  /** `if type(x) != list: x = [x]`. A tuple is not a list, so it is wrapped too. */
  function AsList(j: Json): (r: seq<Json>)
    ensures j.JList? ==> r == j.items
    ensures !j.JList? ==> r == [j]
  {
    if j.JList? then j.items else [j]
  }

  /** Wrapping is idempotent: a wrapped value is already a list. */
  lemma AsListIdempotent(j: Json)
    ensures AsList(JList(AsList(j))) == AsList(j)
  {
  }

  /** A single int residue selects just that residue. */
  lemma SingleResidue(chain: Json, n: int, auth: Json, eval: string -> EvalOutcome)
    requires n != 0
    ensures GetTargets(chain, JInt(n), auth, eval) ==
      Ok(map["chain_name" := chain, "auth" := auth, "residue_numbers" := JList([JInt(n)])])
  {
    ResidueNumbersOfInts([JInt(n)], eval);
  }

  /** A bare residue name such as "ALA" is no Python expression `eval` can
      evaluate: the NameError it raises propagates out of `get_targets`. */
  lemma BareResidueNameRaises(chain: Json, auth: Json, eval: string -> EvalOutcome)
    requires eval("ALA") == Raised(NameError)
    ensures GetTargets(chain, JStr("ALA"), auth, eval) == Err(NameError)
  {
    assert Collected(JStr("ALA"), eval) == Err(NameError);
    assert ResidueNumbers([JStr("ALA")], eval) == Err(NameError);
  }

  /** `create_component`: the representation is lower-cased and must be one
      of the known names; a single target is wrapped in a list. */
  function CreateComponent(componentLabel: Json, targets: Json, representation: string): (r: Result<Payload>)
    ensures r.Ok? <==> Lower(representation) in RepresentationNames
    ensures r.Err? ==> r.error == RuntimeError
    ensures r.Ok? ==> r.value.Keys == {"label", "targets", "representation"}
    ensures r.Ok? ==> r.value["label"] == componentLabel && r.value["targets"] == JList(AsList(targets))
    ensures r.Ok? ==> r.value["representation"] == JStr(Lower(representation))
  {
    var name := Lower(representation);
    if name !in RepresentationNames then Err(RuntimeError)
    else Ok(map["label" := componentLabel, "targets" := JList(AsList(targets)), "representation" := JStr(name)])
  }

  /** `get_selection`: `select` chooses select or hover mode, `add` adds to
      or replaces the current selection. */
  function GetSelection(targets: Json, select: bool, add: bool): (r: Payload)
    ensures r.Keys == {"targets", "mode", "modifier"}
    ensures r["targets"] == JList(AsList(targets))
    ensures r["mode"] == JStr("select") <==> select
    ensures r["mode"] == JStr("hover") <==> !select
    ensures r["modifier"] == JStr("add") <==> add
    ensures r["modifier"] == JStr("set") <==> !add
  {
    var mode := if select then "select" else "hover";
    var modifier := if add then "add" else "set";
    map["targets" := JList(AsList(targets)), "mode" := JStr(mode), "modifier" := JStr(modifier)]
  }

  /** `get_focus`: the targets, wrapped in a list when single, and `analyse`
      as given. */
  function GetFocus(targets: Json, analyse: Json): (r: Payload)
    ensures r.Keys == {"targets", "analyse"}
    ensures r["targets"] == JList(AsList(targets)) && r["analyse"] == analyse
  {
    map["targets" := JList(AsList(targets)), "analyse" := analyse]
  }
}
