/** The `Representation` builder: a representation type with an optional
    colour theme and an optional size theme, each with a parameter map, all
    checked against a schema of allowed names. The program reads the schema
    from its bundled `representation_params.json`; here it is a value passed in. */
module Representations {
  import opened Common

  /** A parameter map, as `set_*_params` receives it and `to_dict` emits it. */
  type Params = map<string, Json>

  /** The allowed names: the lists under `type`, `color` and `size` (a missing
      list reads as empty), and for each name the list of parameter keys it
      accepts (a name missing there is a KeyError). */
  datatype Schema = Schema(
    types: seq<string>, colors: seq<string>, sizes: seq<string>,
    typeParams: map<string, seq<string>>,
    colorParams: map<string, seq<string>>,
    sizeParams: map<string, seq<string>>)

  /** What a representation holds: `_type`, `_color`, `_size` and the three
      parameter maps. */
  datatype Settings = Settings(
    kind: string, color: Option<string>, size: Option<string>,
    typeParams: Params, colorParams: Params, sizeParams: Params)

  const DefaultType: string := "cartoon"

  /** The fields `__init__` assigns before it runs the setters. */
  const Initial: Settings := Settings(DefaultType, None, None, map[], map[], map[])

  /** Every key of `params` is in the whitelist `valid`. */
  predicate Allowed(params: Params, valid: seq<string>) {
    forall k :: k in params ==> k in valid
  }

  /** What the setters keep true: each name is a schema member, and a
      non-empty parameter map belongs to a set name whose whitelist holds its
      keys. */
  predicate Valid(schema: Schema, s: Settings) {
    && s.kind in schema.types
    && (s.color.None? || s.color.value in schema.colors)
    && (s.size.None? || s.size.value in schema.sizes)
    && (s.typeParams != map[] ==>
          s.kind in schema.typeParams && Allowed(s.typeParams, schema.typeParams[s.kind]))
    && (s.colorParams != map[] ==>
          Truthy(s.color) && s.color.value in schema.colorParams
          && Allowed(s.colorParams, schema.colorParams[s.color.value]))
    && (s.sizeParams != map[] ==>
          Truthy(s.size) && s.size.value in schema.sizeParams
          && Allowed(s.sizeParams, schema.sizeParams[s.size.value]))
  }

  // The setters, on values.

  /** The `type` setter: only a schema type is accepted, and it clears the
      type parameters; anything else raises and changes nothing. */
  function WithType(schema: Schema, s: Settings, value: string): (r: Result<Settings>)
    ensures r.Ok? <==> value in schema.types
    ensures r.Err? ==> r.error == ValueError
    ensures r.Ok? ==> r.value == s.(kind := value, typeParams := map[])
    ensures r.Ok? && Valid(schema, s) ==> Valid(schema, r.value)
  {
    if value in schema.types then Ok(s.(kind := value, typeParams := map[])) else Err(ValueError)
  }

  /** The `color` setter: None or a schema colour is accepted, and it clears
      the colour parameters; anything else raises and changes nothing. */
  function WithColor(schema: Schema, s: Settings, value: Option<string>): (r: Result<Settings>)
    ensures r.Ok? <==> value.None? || value.value in schema.colors
    ensures r.Err? ==> r.error == ValueError
    ensures r.Ok? ==> r.value == s.(color := value, colorParams := map[])
    ensures r.Ok? && Valid(schema, s) ==> Valid(schema, r.value)
  {
    if value.None? || value.value in schema.colors then Ok(s.(color := value, colorParams := map[]))
    else Err(ValueError)
  }

  /** The `size` setter, the same rule over the schema sizes. */
  function WithSize(schema: Schema, s: Settings, value: Option<string>): (r: Result<Settings>)
    ensures r.Ok? <==> value.None? || value.value in schema.sizes
    ensures r.Err? ==> r.error == ValueError
    ensures r.Ok? ==> r.value == s.(size := value, sizeParams := map[])
    ensures r.Ok? && Valid(schema, s) ==> Valid(schema, r.value)
  {
    if value.None? || value.value in schema.sizes then Ok(s.(size := value, sizeParams := map[]))
    else Err(ValueError)
  }

  /** `_set_params`: `target` with every whitelisted entry of `params` written
      over it; the other entries of `params` are dropped. */
  function Merged(target: Params, params: Params, valid: seq<string>): (r: Params)
    ensures forall k :: k in r <==> k in target || (k in params && k in valid)
    ensures forall k :: k in r ==> r[k] == if k in params && k in valid then params[k] else target[k]
    ensures Allowed(target, valid) ==> Allowed(r, valid)
  {
    map k | k in target.Keys + params.Keys && (k in target || k in valid) ::
      if k in params && k in valid then params[k] else target[k]
  }

  /** Merging the same parameters twice is merging them once. */
  lemma MergedIdempotent(target: Params, params: Params, valid: seq<string>)
    ensures Merged(Merged(target, params, valid), params, valid) == Merged(target, params, valid)
  {
    var once := Merged(target, params, valid);
    var twice := Merged(once, params, valid);
    assert twice.Keys == once.Keys;
    forall k | k in once ensures twice[k] == once[k] {
    }
  }

  /** Into an empty map, a fully whitelisted parameter map is copied as it is. */
  lemma MergedIntoEmpty(params: Params, valid: seq<string>)
    requires Allowed(params, valid)
    ensures Merged(map[], params, valid) == params
  {
    var r := Merged(map[], params, valid);
    assert r.Keys == params.Keys;
  }

  /** `set_type_params`: the whitelist of the current type must exist
      (KeyError), and the argument must be a mapping (AttributeError, from
      `.items()`). */
  function WithTypeParams(schema: Schema, s: Settings, params: Json): (r: Result<Settings>)
    ensures r.Err? <==> s.kind !in schema.typeParams || !params.JDict?
    ensures r.Err? ==> r.error == (if s.kind !in schema.typeParams then KeyError else AttributeError)
    ensures r.Ok? ==>
      r.value == s.(typeParams := Merged(s.typeParams, params.fields, schema.typeParams[s.kind]))
    ensures r.Ok? && Valid(schema, s) ==> Valid(schema, r.value)
  {
    if s.kind !in schema.typeParams then Err(KeyError)
    else if !params.JDict? then Err(AttributeError)
    else
      var merged := Merged(s.typeParams, params.fields, schema.typeParams[s.kind]);
      Ok(s.(typeParams := merged))
  }

  /** `set_color_params`: raises ValueError while no colour is set (None or
      empty), then as `set_type_params` with the colour's whitelist. */
  function WithColorParams(schema: Schema, s: Settings, params: Json): (r: Result<Settings>)
    ensures r.Err? <==> !Truthy(s.color) || s.color.value !in schema.colorParams || !params.JDict?
    ensures r.Err? ==>
      r.error == (if !Truthy(s.color) then ValueError
                  else if s.color.value !in schema.colorParams then KeyError
                  else AttributeError)
    ensures r.Ok? ==>
      r.value == s.(colorParams := Merged(s.colorParams, params.fields, schema.colorParams[s.color.value]))
    ensures r.Ok? && Valid(schema, s) ==> Valid(schema, r.value)
  {
    if !Truthy(s.color) then Err(ValueError)
    else if s.color.value !in schema.colorParams then Err(KeyError)
    else if !params.JDict? then Err(AttributeError)
    else
      var merged := Merged(s.colorParams, params.fields, schema.colorParams[s.color.value]);
      Ok(s.(colorParams := merged))
  }

  /** `set_size_params`, the same rule over the size. */
  function WithSizeParams(schema: Schema, s: Settings, params: Json): (r: Result<Settings>)
    ensures r.Err? <==> !Truthy(s.size) || s.size.value !in schema.sizeParams || !params.JDict?
    ensures r.Err? ==>
      r.error == (if !Truthy(s.size) then ValueError
                  else if s.size.value !in schema.sizeParams then KeyError
                  else AttributeError)
    ensures r.Ok? ==>
      r.value == s.(sizeParams := Merged(s.sizeParams, params.fields, schema.sizeParams[s.size.value]))
    ensures r.Ok? && Valid(schema, s) ==> Valid(schema, r.value)
  {
    if !Truthy(s.size) then Err(ValueError)
    else if s.size.value !in schema.sizeParams then Err(KeyError)
    else if !params.JDict? then Err(AttributeError)
    else
      var merged := Merged(s.sizeParams, params.fields, schema.sizeParams[s.size.value]);
      Ok(s.(sizeParams := merged))
  }

  /** `Representation(type, color, size)`: the type setter runs first, then
      the colour and size setters, each only for a non-empty value. */
  function Created(schema: Schema, kind: string, color: Option<string>, size: Option<string>): (r: Result<Settings>)
    ensures r.Ok? <==>
      && kind in schema.types
      && (Truthy(color) ==> color.value in schema.colors)
      && (Truthy(size) ==> size.value in schema.sizes)
    ensures r.Err? ==> r.error == ValueError
    ensures r.Ok? ==> Valid(schema, r.value)
    ensures r.Ok? ==>
      r.value == Settings(kind, if Truthy(color) then color else None, if Truthy(size) then size else None,
                          map[], map[], map[])
  {
    match WithType(schema, Initial, kind)
    case Err(e) => Err(e)
    case Ok(typed) =>
      match (if Truthy(color) then WithColor(schema, typed, color) else Ok(typed))
      case Err(e) => Err(e)
      case Ok(colored) => if Truthy(size) then WithSize(schema, colored, size) else Ok(colored)
  }

  /** `to_dict`: `type` always; `typeParams` when non-empty; `color` and
      `size` when set to a non-empty name, each followed by its parameters
      when those are non-empty. */
  function Serialized(s: Settings): (r: map<string, Json>)
    ensures r.Keys <= {"type", "typeParams", "color", "colorParams", "size", "sizeParams"}
    ensures "type" in r && r["type"] == JStr(s.kind)
    ensures "typeParams" in r <==> s.typeParams != map[]
    ensures "color" in r <==> Truthy(s.color)
    ensures "colorParams" in r <==> Truthy(s.color) && s.colorParams != map[]
    ensures "size" in r <==> Truthy(s.size)
    ensures "sizeParams" in r <==> Truthy(s.size) && s.sizeParams != map[]
    ensures "typeParams" in r ==> r["typeParams"] == JDict(s.typeParams)
    ensures "color" in r ==> r["color"] == JStr(s.color.value)
    ensures "colorParams" in r ==> r["colorParams"] == JDict(s.colorParams)
    ensures "size" in r ==> r["size"] == JStr(s.size.value)
    ensures "sizeParams" in r ==> r["sizeParams"] == JDict(s.sizeParams)
  {
    var typed := map["type" := JStr(s.kind)];
    var withTypeParams := if s.typeParams != map[] then typed["typeParams" := JDict(s.typeParams)] else typed;
    var withColor :=
      if !Truthy(s.color) then withTypeParams
      else if s.colorParams == map[] then withTypeParams["color" := JStr(s.color.value)]
      else withTypeParams["color" := JStr(s.color.value)]["colorParams" := JDict(s.colorParams)];
    if !Truthy(s.size) then withColor
    else if s.sizeParams == map[] then withColor["size" := JStr(s.size.value)]
    else withColor["size" := JStr(s.size.value)]["sizeParams" := JDict(s.sizeParams)]
  }

  /** `config.get(key, default)`. */
  function Get(config: map<string, Json>, key: string, default: Json): Json {
    if key in config then config[key] else default
  }

  /** A name read from a configuration: None when it is falsy (the
      constructor skips the setter), the string when it is a non-empty string. */
  function NameOf(j: Json): Option<string> {
    if JsonTruthy(j) && j.JStr? then Some(j.s) else None
  }

  /** `from_config` on the loaded mapping: the constructor with `type`
      (default "cartoon"), `color` and `size`, then each parameter setter whose
      key is present. A name that is not a string is never a schema member, so
      its setter raises ValueError. */
  function Configured(schema: Schema, config: map<string, Json>): (r: Result<Settings>)
    ensures r.Ok? ==> Valid(schema, r.value)
  {
    var kind := Get(config, "type", JStr(DefaultType));
    var color := Get(config, "color", JNull);
    var size := Get(config, "size", JNull);
    if !kind.JStr? || (JsonTruthy(color) && !color.JStr?) || (JsonTruthy(size) && !size.JStr?) then
      Err(ValueError)
    else
      match Created(schema, kind.s, NameOf(color), NameOf(size))
      case Err(e) => Err(e)
      case Ok(created) =>
        match (if "typeParams" in config then WithTypeParams(schema, created, config["typeParams"]) else Ok(created))
        case Err(e) => Err(e)
        case Ok(typed) =>
          match (if "colorParams" in config then WithColorParams(schema, typed, config["colorParams"]) else Ok(typed))
          case Err(e) => Err(e)
          case Ok(colored) =>
            if "sizeParams" in config then WithSizeParams(schema, colored, config["sizeParams"]) else Ok(colored)
  }

  /** What a rebuild keeps of `s`: everything but an empty colour or size
      name and the parameters of an unset colour or size, none of which
      `to_dict` emits. */
  function Emitted(s: Settings): Settings {
    Settings(
      s.kind,
      if Truthy(s.color) then s.color else None,
      if Truthy(s.size) then s.size else None,
      s.typeParams,
      if Truthy(s.color) then s.colorParams else map[],
      if Truthy(s.size) then s.sizeParams else map[])
  }

  /** `to_dict` does not see what `Emitted` drops. */
  lemma SerializedEmitted(s: Settings)
    ensures Serialized(Emitted(s)) == Serialized(s)
  {
  }

  /** Rebuilding from `to_dict` yields exactly what `to_dict` shows. */
  lemma ConfiguredSerialized(schema: Schema, s: Settings)
    requires Valid(schema, s)
    ensures Configured(schema, Serialized(s)) == Ok(Emitted(s))
  {
    var config := Serialized(s);
    var e := Emitted(s);
    assert Get(config, "type", JStr(DefaultType)) == JStr(s.kind);
    assert NameOf(Get(config, "color", JNull)) == e.color;
    assert NameOf(Get(config, "size", JNull)) == e.size;
    var created := Settings(s.kind, e.color, e.size, map[], map[], map[]);
    assert Created(schema, s.kind, e.color, e.size) == Ok(created);
    var typed := created.(typeParams := s.typeParams);
    if "typeParams" in config {
      MergedIntoEmpty(s.typeParams, schema.typeParams[s.kind]);
      assert WithTypeParams(schema, created, config["typeParams"]) == Ok(typed);
    }
    var colored := typed.(colorParams := e.colorParams);
    if "colorParams" in config {
      MergedIntoEmpty(s.colorParams, schema.colorParams[s.color.value]);
      assert WithColorParams(schema, typed, config["colorParams"]) == Ok(colored);
    }
    assert colored.(sizeParams := e.sizeParams) == e;
    if "sizeParams" in config {
      MergedIntoEmpty(s.sizeParams, schema.sizeParams[s.size.value]);
      assert WithSizeParams(schema, colored, config["sizeParams"]) == Ok(e);
    }
  }

  /** Round trip: a representation rebuilt from its own `to_dict` serialises
      to the same mapping. */
  lemma ConfiguredRoundTrip(schema: Schema, s: Settings)
    requires Valid(schema, s)
    ensures Configured(schema, Serialized(s)).Ok?
    ensures Serialized(Configured(schema, Serialized(s)).value) == Serialized(s)
  {
    ConfiguredSerialized(schema, s);
    SerializedEmitted(s);
  }

  /** A representation object: the schema it checks against, and the fields
      its setters reassign. */
  class Representation {
    const schema: Schema
    var kind: string
    var color: Option<string>
    var size: Option<string>
    var typeParams: Params
    var colorParams: Params
    var sizeParams: Params

    /** The fields as one value. */
    function State(): Settings
      reads this
    {
      Settings(kind, color, size, typeParams, colorParams, sizeParams)
    }

    /** The fields `__init__` assigns before it runs the setters. */
    constructor Init(schema: Schema)
      ensures this.schema == schema && State() == Initial
    {
      this.schema := schema;
      kind := DefaultType;
      color := None;
      size := None;
      typeParams := map[];
      colorParams := map[];
      sizeParams := map[];
    }

    /** `Representation(type, color, size)`: raises ValueError when a setter
      rejects its value. */
    static method Create(schema: Schema, kind: string, color: Option<string>, size: Option<string>)
      returns (r: Result<Representation>)
      ensures r.Ok? <==> Created(schema, kind, color, size).Ok?
      ensures r.Err? ==> r.error == Created(schema, kind, color, size).error
      ensures r.Ok? ==> fresh(r.value) && r.value.schema == schema
      ensures r.Ok? ==> r.value.State() == Created(schema, kind, color, size).value
    {
      var rep := new Representation.Init(schema);
      var err := rep.SetType(kind);
      if err.Some? {
        return Err(err.value);
      }
      if Truthy(color) {
        err := rep.SetColor(color);
        if err.Some? {
          return Err(err.value);
        }
      }
      if Truthy(size) {
        err := rep.SetSize(size);
        if err.Some? {
          return Err(err.value);
        }
      }
      return Ok(rep);
    }

    /** The `type` setter: None on success, the exception otherwise. */
    method SetType(value: string) returns (err: Option<Error>)
      modifies this
      ensures var next := WithType(schema, old(State()), value);
        if next.Ok? then err.None? && State() == next.value
        else err == Some(next.error) && State() == old(State())
    {
      if value in schema.types {
        kind := value;
        typeParams := map[];
        err := None;
      } else {
        err := Some(ValueError);
      }
    }

    /** The `color` setter. */
    method SetColor(value: Option<string>) returns (err: Option<Error>)
      modifies this
      ensures var next := WithColor(schema, old(State()), value);
        if next.Ok? then err.None? && State() == next.value
        else err == Some(next.error) && State() == old(State())
    {
      if value.None? || value.value in schema.colors {
        color := value;
        colorParams := map[];
        err := None;
      } else {
        err := Some(ValueError);
      }
    }

    /** The `size` setter. */
    method SetSize(value: Option<string>) returns (err: Option<Error>)
      modifies this
      ensures var next := WithSize(schema, old(State()), value);
        if next.Ok? then err.None? && State() == next.value
        else err == Some(next.error) && State() == old(State())
    {
      if value.None? || value.value in schema.sizes {
        size := value;
        sizeParams := map[];
        err := None;
      } else {
        err := Some(ValueError);
      }
    }

    /** `_set_params`: walks the entries of `params`, writing each whitelisted
      one into `target` and dropping the rest; `ignored` holds the dropped
      keys, which the program reports as warnings. */
    static method SetParams(target: Params, params: Params, valid: seq<string>)
      returns (merged: Params, ignored: set<string>)
      ensures merged == Merged(target, params, valid)
      ensures forall k :: k in ignored <==> k in params && k !in valid
    {
      merged := target;
      ignored := {};
      var pending := params.Keys;
      while pending != {}
        invariant pending <= params.Keys
        invariant forall k :: k in merged <==> k in target || (k in params && k !in pending && k in valid)
        invariant forall k :: k in merged ==>
          merged[k] == if k in params && k !in pending && k in valid then params[k] else target[k]
        invariant forall k :: k in ignored <==> k in params && k !in pending && k !in valid
        decreases |pending|
      {
        var key :| key in pending;
        if key in valid {
          merged := merged[key := params[key]];
        } else {
          ignored := ignored + {key};
        }
        pending := pending - {key};
      }
      assert merged.Keys == Merged(target, params, valid).Keys;
    }

    /** `set_type_params`. */
    method SetTypeParams(params: Json) returns (err: Option<Error>)
      modifies this
      ensures var next := WithTypeParams(schema, old(State()), params);
        if next.Ok? then err.None? && State() == next.value
        else err == Some(next.error) && State() == old(State())
    {
      if kind !in schema.typeParams {
        return Some(KeyError);
      }
      var valid := schema.typeParams[kind];
      if !params.JDict? {
        return Some(AttributeError);
      }
      var ignored;
      typeParams, ignored := SetParams(typeParams, params.fields, valid);
      err := None;
    }

    /** `set_color_params`. */
    method SetColorParams(params: Json) returns (err: Option<Error>)
      modifies this
      ensures var next := WithColorParams(schema, old(State()), params);
        if next.Ok? then err.None? && State() == next.value
        else err == Some(next.error) && State() == old(State())
    {
      if !Truthy(color) {
        return Some(ValueError);
      }
      if color.value !in schema.colorParams {
        return Some(KeyError);
      }
      var valid := schema.colorParams[color.value];
      if !params.JDict? {
        return Some(AttributeError);
      }
      var ignored;
      colorParams, ignored := SetParams(colorParams, params.fields, valid);
      err := None;
    }

    /** `set_size_params`. */
    method SetSizeParams(params: Json) returns (err: Option<Error>)
      modifies this
      ensures var next := WithSizeParams(schema, old(State()), params);
        if next.Ok? then err.None? && State() == next.value
        else err == Some(next.error) && State() == old(State())
    {
      if !Truthy(size) {
        return Some(ValueError);
      }
      if size.value !in schema.sizeParams {
        return Some(KeyError);
      }
      var valid := schema.sizeParams[size.value];
      if !params.JDict? {
        return Some(AttributeError);
      }
      var ignored;
      sizeParams, ignored := SetParams(sizeParams, params.fields, valid);
      err := None;
    }

    /** `to_dict`. */
    function ToDict(): (r: map<string, Json>)
      reads this
      ensures "type" in r && r["type"] == JStr(kind)
    {
      Serialized(State())
    }

    /** `from_config` once the file is loaded: builds the representation from
      the mapping and applies the parameter maps it holds. */
    static method FromConfig(schema: Schema, config: map<string, Json>) returns (r: Result<Representation>)
      ensures r.Ok? <==> Configured(schema, config).Ok?
      ensures r.Err? ==> r.error == Configured(schema, config).error
      ensures r.Ok? ==> fresh(r.value) && r.value.schema == schema
      ensures r.Ok? ==> r.value.State() == Configured(schema, config).value
    {
      var kind := Get(config, "type", JStr(DefaultType));
      var color := Get(config, "color", JNull);
      var size := Get(config, "size", JNull);
      if !kind.JStr? || (JsonTruthy(color) && !color.JStr?) || (JsonTruthy(size) && !size.JStr?) {
        return Err(ValueError);
      }
      var created := Create(schema, kind.s, NameOf(color), NameOf(size));
      if created.Err? {
        return Err(created.error);
      }
      var rep := created.value;
      var err: Option<Error> := None;
      if "typeParams" in config {
        err := rep.SetTypeParams(config["typeParams"]);
        if err.Some? {
          return Err(err.value);
        }
      }
      if "colorParams" in config {
        err := rep.SetColorParams(config["colorParams"]);
        if err.Some? {
          return Err(err.value);
        }
      }
      if "sizeParams" in config {
        err := rep.SetSizeParams(config["sizeParams"]);
        if err.Some? {
          return Err(err.value);
        }
      }
      return Ok(rep);
    }
  }
}
