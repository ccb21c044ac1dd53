/** The gateway editor of the admin front end (front/src/application.tsx): conversion
    between a gateway as the server stores it (params: name -> path segments) and the
    form being edited (params: a list of name and dotted path), and the edits the form
    makes in place on the selected gateway. */
module Application {
  import opened Wrappers
  import opened Collections
  import opened Strings

  /** A gateway as the server sends it (`IGateway`); `uuid` is undefined for a new one. */
  datatype GatewayRecord = GatewayRecord(uuid: Option<string>, methodName: string, path: string,
                                         lambda: string, params: map<string, seq<string>>)

  /** One row of the parameter list of the form (`IGatewayForEditionParameter`). */
  datatype EditParam = EditParam(name: string, path: string)

  /** The form (`IGatewayForEdition`). */
  datatype GatewayForEdition = GatewayForEdition(uuid: Option<string>, methodName: string, path: string,
                                                 lambda: string, params: seq<EditParam>)

  /** The `reduce` of `toGateway`, as the pairs it assigns in order. */
  function SplitPairs(ps: seq<EditParam>): (pairs: seq<(string, seq<string>)>)
    ensures |pairs| == |ps|
    ensures forall i | 0 <= i < |ps| :: pairs[i] == (ps[i].name, Split(ps[i].path, '.'))
  {
    seq(|ps|, i requires 0 <= i < |ps| => (ps[i].name, Split(ps[i].path, '.')))
  }

  ghost predicate LastWithName(ps: seq<EditParam>, i: nat)
    requires i < |ps|
  {
    forall j | i < j < |ps| :: ps[j].name != ps[i].name
  }

  /** `toGateway(editing)`: uuid, method, path and lambda are copied; params maps each
      row's name to its path split at '.', and of two rows with the same name the later
      one wins. */
  function ToGateway(e: GatewayForEdition): (g: GatewayRecord)
    ensures g.uuid == e.uuid && g.methodName == e.methodName && g.path == e.path && g.lambda == e.lambda
    ensures g.params.Keys == set i | 0 <= i < |e.params| :: e.params[i].name
    ensures forall i | 0 <= i < |e.params| && LastWithName(e.params, i) ::
              g.params[e.params[i].name] == Split(e.params[i].path, '.')
  {
    var pairs := SplitPairs(e.params);
    var params := FromPairs(pairs);
    FromPairsKeys(pairs);
    assert PairKeys(pairs) == set i | 0 <= i < |e.params| :: e.params[i].name by {
      assert forall i | 0 <= i < |pairs| :: pairs[i].0 == e.params[i].name;
    }
    assert forall i | 0 <= i < |e.params| && LastWithName(e.params, i) :: params[e.params[i].name] == Split(e.params[i].path, '.') by {
      forall i | 0 <= i < |e.params| && LastWithName(e.params, i)
        ensures params[e.params[i].name] == Split(e.params[i].path, '.')
      {
        assert LastWithKey(pairs, i);
        FromPairsValue(pairs, i);
      }
    }
    GatewayRecord(e.uuid, e.methodName, e.path, e.lambda, params)
  }

  /** `keys` lists each element of `s` exactly once (what `Object.keys` returns). */
  ghost predicate Enumerates(keys: seq<string>, s: set<string>)
  {
    && (forall k | k in keys :: k in s)
    && (forall k | k in s :: k in keys)
    && (forall i, j | 0 <= i < j < |keys| :: keys[i] != keys[j])
  }

  /** `fromGateway(gateway)`: one row per key of `params`, in the order `keys` in which
      Object.keys lists them, its path the key's segments joined with '.'; the other
      fields are copied. */
  function FromGateway(g: GatewayRecord, keys: seq<string>): (e: GatewayForEdition)
    requires Enumerates(keys, g.params.Keys)
    ensures e.uuid == g.uuid && e.methodName == g.methodName && e.path == g.path && e.lambda == g.lambda
    ensures |e.params| == |g.params|
    ensures (set i | 0 <= i < |e.params| :: e.params[i].name) == g.params.Keys
    ensures forall i, j | 0 <= i < j < |e.params| :: e.params[i].name != e.params[j].name
    ensures forall i | 0 <= i < |e.params| :: e.params[i].path == Join(g.params[e.params[i].name], '.')
  {
    var rows := seq(|keys|, i requires 0 <= i < |keys| => EditParam(keys[i], Join(g.params[keys[i]], '.')));
    assert (set i | 0 <= i < |rows| :: rows[i].name) == g.params.Keys by {
      forall k | k in g.params.Keys ensures k in (set i | 0 <= i < |rows| :: rows[i].name) {
        var i :| 0 <= i < |keys| && keys[i] == k;
        assert rows[i].name == k;
      }
    }
    NoDupCard(keys, g.params.Keys);
    GatewayForEdition(g.uuid, g.methodName, g.path, g.lambda, rows)
  }

  /** A duplicate-free list of the elements of `s` is as long as `s` is large. */
  lemma {:induction false} NoDupCard(keys: seq<string>, s: set<string>)
    requires Enumerates(keys, s)
    ensures |keys| == |s|
  {
    if |keys| > 0 {
      var rest := keys[1..];
      assert Enumerates(rest, s - {keys[0]}) by {
        forall k | k in rest ensures k in s - {keys[0]} {
          var j :| 0 <= j < |rest| && rest[j] == k;
          assert keys[j + 1] == k;
        }
        forall k | k in s - {keys[0]} ensures k in rest {
          var j :| 0 <= j < |keys| && keys[j] == k;
          assert j != 0;
          assert rest[j - 1] == k;
        }
      }
      NoDupCard(rest, s - {keys[0]});
    }
  }

  /** Segment lists that survive `join('.')` then `split('.')`: non-empty, no '.' in a segment. */
  predicate CleanSegments(segments: seq<string>)
  {
    |segments| >= 1 && forall i | 0 <= i < |segments| :: '.' !in segments[i]
  }

  /** In a form whose rows have distinct names, each name maps to its own row's split path. */
  lemma DistinctRowConverted(e: GatewayForEdition, i: nat)
    requires i < |e.params|
    requires forall a, b | 0 <= a < b < |e.params| :: e.params[a].name != e.params[b].name
    ensures e.params[i].name in ToGateway(e).params
    ensures ToGateway(e).params[e.params[i].name] == Split(e.params[i].path, '.')
  {
    assert LastWithName(e.params, i);
  }

  /** After the round trip, each key maps to its segments joined and split again. */
  lemma {:induction false} RoundTripParam(g: GatewayRecord, keys: seq<string>, k: string)
    requires Enumerates(keys, g.params.Keys)
    requires k in g.params
    ensures k in ToGateway(FromGateway(g, keys)).params
    ensures ToGateway(FromGateway(g, keys)).params[k] == Split(Join(g.params[k], '.'), '.')
  {
    var e := FromGateway(g, keys);
    assert k in (set i | 0 <= i < |e.params| :: e.params[i].name);
    var i :| 0 <= i < |e.params| && e.params[i].name == k;
    DistinctRowConverted(e, i);
  }

  /** Editing a stored gateway and converting it back gives the same gateway exactly
      when every parameter's segment list is non-empty and no segment contains '.'. */
  lemma {:induction false} ToFromGateway(g: GatewayRecord, keys: seq<string>)
    requires Enumerates(keys, g.params.Keys)
    ensures ToGateway(FromGateway(g, keys)) == g <==> forall k | k in g.params :: CleanSegments(g.params[k])
  {
    if forall k | k in g.params :: CleanSegments(g.params[k]) {
      ToFromClean(g, keys);
    } else {
      var k :| k in g.params && !CleanSegments(g.params[k]);
      ToFromParamAt(g, keys, k);
    }
  }

  /** With clean segments everywhere, the round trip is the identity. */
  lemma {:induction false} ToFromClean(g: GatewayRecord, keys: seq<string>)
    requires Enumerates(keys, g.params.Keys)
    requires forall k | k in g.params :: CleanSegments(g.params[k])
    ensures ToGateway(FromGateway(g, keys)) == g
  {
    var back := ToGateway(FromGateway(g, keys));
    ToFromFields(g, keys);
    forall k | k in g.params ensures back.params[k] == g.params[k] {
      ToFromParamAt(g, keys, k);
    }
    SameRecord(back, g);
  }

  /** Two gateways with the same fields and the same params are equal. */
  lemma SameRecord(a: GatewayRecord, b: GatewayRecord)
    requires a.uuid == b.uuid && a.methodName == b.methodName && a.path == b.path && a.lambda == b.lambda
    requires a.params.Keys == b.params.Keys
    requires forall k | k in b.params :: a.params[k] == b.params[k]
    ensures a == b
  {
    assert a.params == b.params;
  }

  /** The round trip keeps every field but the params, and the params' keys. */
  lemma ToFromFields(g: GatewayRecord, keys: seq<string>)
    requires Enumerates(keys, g.params.Keys)
    ensures var back := ToGateway(FromGateway(g, keys));
            && back.uuid == g.uuid && back.methodName == g.methodName && back.path == g.path
            && back.lambda == g.lambda && back.params.Keys == g.params.Keys
  {
  }

  /** One key survives the round trip exactly when its segments are clean. */
  lemma {:induction false} ToFromParamAt(g: GatewayRecord, keys: seq<string>, k: string)
    requires Enumerates(keys, g.params.Keys)
    requires k in g.params
    ensures k in ToGateway(FromGateway(g, keys)).params
    ensures ToGateway(FromGateway(g, keys)).params[k] == g.params[k] <==> CleanSegments(g.params[k])
  {
    RoundTripParam(g, keys, k);
    SplitJoin(g.params[k], '.');
  }

  /** Converting a form whose rows have distinct names and reading it back gives the form. */
  lemma {:induction false} FromToGateway(e: GatewayForEdition)
    requires forall i, j | 0 <= i < j < |e.params| :: e.params[i].name != e.params[j].name
    ensures Enumerates(Names(e.params), ToGateway(e).params.Keys)
    ensures FromGateway(ToGateway(e), Names(e.params)) == e
  {
    NamesEnumerate(e);
    var back := FromGateway(ToGateway(e), Names(e.params));
    FromToParams(e);
    assert back == GatewayForEdition(e.uuid, e.methodName, e.path, e.lambda, e.params);
  }

  lemma {:induction false} FromToParams(e: GatewayForEdition)
    requires forall i, j | 0 <= i < j < |e.params| :: e.params[i].name != e.params[j].name
    ensures Enumerates(Names(e.params), ToGateway(e).params.Keys)
    ensures FromGateway(ToGateway(e), Names(e.params)).params == e.params
  {
    NamesEnumerate(e);
    var rows := FromGateway(ToGateway(e), Names(e.params)).params;
    forall i | 0 <= i < |e.params| ensures rows[i] == e.params[i] {
      FromToRow(e, i);
    }
    assert |rows| == |e.params|;
  }

  lemma FromToRow(e: GatewayForEdition, i: nat)
    requires forall i, j | 0 <= i < j < |e.params| :: e.params[i].name != e.params[j].name
    requires i < |e.params|
    ensures Enumerates(Names(e.params), ToGateway(e).params.Keys)
    ensures |FromGateway(ToGateway(e), Names(e.params)).params| == |e.params|
    ensures FromGateway(ToGateway(e), Names(e.params)).params[i] == e.params[i]
  {
    NamesEnumerate(e);
    var g := ToGateway(e);
    var names := Names(e.params);
    DistinctRowConverted(e, i);
    JoinSplit(e.params[i].path, '.');
    RowOfKey(g, names, i);
  }

  /** Whatever order `Object.keys` lists the names in (JavaScript puts array-index names
      such as "0" or "42" first), a form with distinct row names comes back from the round
      trip with the same fields and the same rows, reordered as those keys are. */
  lemma {:induction false} FromToGatewayAnyOrder(e: GatewayForEdition, keys: seq<string>)
    requires forall i, j | 0 <= i < j < |e.params| :: e.params[i].name != e.params[j].name
    requires Enumerates(keys, ToGateway(e).params.Keys)
    ensures var back := FromGateway(ToGateway(e), keys);
            && back.uuid == e.uuid && back.methodName == e.methodName && back.path == e.path && back.lambda == e.lambda
            && |back.params| == |e.params|
            && (forall j | 0 <= j < |back.params| :: back.params[j] in e.params)
            && (forall i | 0 <= i < |e.params| :: e.params[i] in back.params)
  {
    var g := ToGateway(e);
    var back := FromGateway(g, keys);
    NoDupCard(keys, g.params.Keys);
    NamesEnumerate(e);
    NoDupCard(Names(e.params), g.params.Keys);
    forall j | 0 <= j < |back.params| ensures back.params[j] in e.params {
      RowOfKey(g, keys, j);
      var i :| 0 <= i < |e.params| && e.params[i].name == keys[j];
      RowFromSource(e, i, g);
      assert back.params[j] == e.params[i];
    }
    forall i | 0 <= i < |e.params| ensures e.params[i] in back.params {
      var k := e.params[i].name;
      assert k in g.params.Keys by { DistinctRowConverted(e, i); }
      var j :| 0 <= j < |keys| && keys[j] == k;
      RowOfKey(g, keys, j);
      RowFromSource(e, i, g);
      assert back.params[j] == e.params[i];
    }
  }

  /** The row built back for the name of row `i` is row `i` itself. */
  lemma RowFromSource(e: GatewayForEdition, i: nat, g: GatewayRecord)
    requires forall a, b | 0 <= a < b < |e.params| :: e.params[a].name != e.params[b].name
    requires i < |e.params| && g == ToGateway(e)
    ensures e.params[i].name in g.params
    ensures EditParam(e.params[i].name, Join(g.params[e.params[i].name], '.')) == e.params[i]
  {
    DistinctRowConverted(e, i);
    JoinSplit(e.params[i].path, '.');
  }

  /** The names of distinct rows list the keys of the converted gateway. */
  lemma NamesEnumerate(e: GatewayForEdition)
    requires forall i, j | 0 <= i < j < |e.params| :: e.params[i].name != e.params[j].name
    ensures Enumerates(Names(e.params), ToGateway(e).params.Keys)
  {
    var names := Names(e.params);
    var keys := ToGateway(e).params.Keys;
    forall k | k in keys ensures k in names {
      var i :| 0 <= i < |e.params| && e.params[i].name == k;
      assert names[i] == k;
    }
    forall k | k in names ensures k in keys {
      var i :| 0 <= i < |names| && names[i] == k;
      assert e.params[i].name == k;
    }
  }

  /** Row `i` of `fromGateway` is built from the `i`-th key. */
  lemma RowOfKey(g: GatewayRecord, keys: seq<string>, i: nat)
    requires Enumerates(keys, g.params.Keys)
    requires i < |keys|
    ensures |FromGateway(g, keys).params| == |keys|
    ensures FromGateway(g, keys).params[i] == EditParam(keys[i], Join(g.params[keys[i]], '.'))
  {
  }

  function Names(ps: seq<EditParam>): (names: seq<string>)
    ensures |names| == |ps| && forall i | 0 <= i < |ps| :: names[i] == ps[i].name
  {
    seq(|ps|, i requires 0 <= i < |ps| => ps[i].name)
  }

  /** The default path of a row added by `newGatewayParameter`: the `value` field of the
      request's query string. */
  function DefaultParamPath(): (p: string)
    ensures p == "query.value"
    ensures Split(p, '.') == ["query", "value"]
  {
    var parts := ["query", "value"];
    assert forall i | 0 <= i < |parts| :: '.' !in parts[i] by {
      assert '.' !in "query";
      assert '.' !in "value";
    }
    SplitJoin(parts, '.');
    assert Join(parts[1..], '.') == "value";
    Join(parts, '.')
  }

  /** The form `createNewGateway` installs. */
  function NewGateway(): (e: GatewayForEdition)
    ensures e.uuid.None? && e.methodName == "get" && e.path == "/path" && e.lambda == "myLambda" && e.params == []
  {
    GatewayForEdition(None, "get", "/path", "myLambda", [])
  }

  /** `_.remove(params, param => param.name === name)`: every row with that name goes,
      the others stay in order. */
  function WithoutName(ps: seq<EditParam>, name: string): (r: seq<EditParam>)
    ensures forall p | p in r :: p in ps && p.name != name
    ensures forall p | p in ps && p.name != name :: p in r
  {
    FilterSpec(ps, (p: EditParam) => p.name != name);
    Filter(ps, (p: EditParam) => p.name != name)
  }

  /** Removing rows keeps the relative order of the rest: it distributes over concatenation. */
  lemma {:induction false} WithoutNameAppend(a: seq<EditParam>, b: seq<EditParam>, name: string)
    ensures WithoutName(a + b, name) == WithoutName(a, name) + WithoutName(b, name)
  {
    FilterAppend(a, b, (p: EditParam) => p.name != name);
  }

  /** With no row of that name, nothing changes. */
  lemma {:induction false} WithoutAbsentName(ps: seq<EditParam>, name: string)
    requires forall i | 0 <= i < |ps| :: ps[i].name != name
    ensures WithoutName(ps, name) == ps
  {
    FilterAll(ps, (p: EditParam) => p.name != name);
  }

  /** `_.find(params, p => p.name === name).path = path`: the first row with that name
      gets the new path; nothing else changes. */
  function WithPath(ps: seq<EditParam>, name: string, path: string): (r: seq<EditParam>)
    requires exists i | 0 <= i < |ps| :: ps[i].name == name
    ensures |r| == |ps|
    ensures exists i | 0 <= i < |ps| :: PathSetAt(ps, r, i, name, path)
  {
    match FirstIndex(ps, (p: EditParam) => p.name == name)
    case Some(i) =>
      var r := ps[i := ps[i].(path := path)];
      assert PathSetAt(ps, r, i, name, path);
      r
  }

  /** `r` is `ps` with the path of row `i`, the first named `name`, set to `path`. */
  ghost predicate PathSetAt(ps: seq<EditParam>, r: seq<EditParam>, i: int, name: string, path: string)
  {
    && 0 <= i < |ps| == |r|
    && ps[i].name == name
    && (forall j | 0 <= j < i :: ps[j].name != name)
    && r[i] == EditParam(name, path)
    && (forall j | 0 <= j < |ps| && j != i :: r[j] == ps[j])
  }

  /** Removing the name of a row just added under a new name gives back the rows as
      they were. */
  lemma {:induction false} RemoveUndoesNewParameter(ps: seq<EditParam>, name: string)
    requires forall i | 0 <= i < |ps| :: ps[i].name != name
    ensures WithoutName(ps + [EditParam(name, DefaultParamPath())], name) == ps
  {
    WithoutNameAppend(ps, [EditParam(name, DefaultParamPath())], name);
    WithoutAbsentName(ps, name);
    var added := [EditParam(name, DefaultParamPath())];
    var keep := (p: EditParam) => p.name != name;
    assert added[1..] == [] && !keep(added[0]);
    assert Filter(added, keep) == [] + Filter([], keep);
  }

  /** With distinct row names, the path set on a row is what the saved gateway holds
      for that name, split at '.'. */
  lemma {:induction false} WithPathConverted(e: GatewayForEdition, name: string, path: string)
    requires forall i, j | 0 <= i < j < |e.params| :: e.params[i].name != e.params[j].name
    requires exists i | 0 <= i < |e.params| :: e.params[i].name == name
    ensures name in ToGateway(e.(params := WithPath(e.params, name, path))).params
    ensures ToGateway(e.(params := WithPath(e.params, name, path))).params[name] == Split(path, '.')
  {
    var r := WithPath(e.params, name, path);
    var i :| 0 <= i < |e.params| && PathSetAt(e.params, r, i, name, path);
    var e2 := e.(params := r);
    assert forall j | 0 <= j < |r| :: r[j].name == e.params[j].name;
    DistinctRowConverted(e2, i);
  }

  /** Why an edit of the selected gateway throws: nothing is selected (reading `params`
      of undefined), or no row has the name (`_.find` returned undefined). */
  datatype EditError = NoSelection | NoSuchParam(name: string)

  /** The store of the gateway pages (`GatewayStore`): the gateway list and the gateway
      selected for edition (`None` before any selection). */
  class GatewayStore {
    var gateways: seq<GatewayRecord>
    var selectedGateway: Option<GatewayForEdition>

    constructor ()
      ensures gateways == [] && selectedGateway == None
    {
      gateways := [];
      selectedGateway := None;
    }

    /** `newGatewayParameter()`: appends a row with the prompted `name` and path
        'query.value' to the selected gateway; nothing else changes. */
    method NewGatewayParameter(name: string) returns (r: Result<(), EditError>)
      modifies this`selectedGateway
      ensures old(selectedGateway).None? ==> r == Err(NoSelection) && selectedGateway == None
      ensures old(selectedGateway).Some? ==>
                && r == Ok(())
                && selectedGateway == Some(old(selectedGateway.value).(params := old(selectedGateway.value.params) + [EditParam(name, DefaultParamPath())]))
    {
      match selectedGateway {
        case None =>
          r := Err(NoSelection);
        case Some(g) =>
          selectedGateway := Some(g.(params := g.params + [EditParam(name, DefaultParamPath())]));
          r := Ok(());
      }
    }

    /** `removeGatewayParam(name)`: removes every row with that name from the selected gateway. */
    method RemoveGatewayParam(name: string) returns (r: Result<(), EditError>)
      modifies this`selectedGateway
      ensures old(selectedGateway).None? ==> r == Err(NoSelection) && selectedGateway == None
      ensures old(selectedGateway).Some? ==>
                && r == Ok(())
                && selectedGateway == Some(old(selectedGateway.value).(params := WithoutName(old(selectedGateway.value.params), name)))
    {
      match selectedGateway {
        case None =>
          r := Err(NoSelection);
        case Some(g) =>
          selectedGateway := Some(g.(params := WithoutName(g.params, name)));
          r := Ok(());
      }
    }

    /** `setGatewayParam(name, path)`: the first row with that name gets `path`; with no
        selection, or no row of that name, it throws and nothing changes. */
    method SetGatewayParam(name: string, path: string) returns (r: Result<(), EditError>)
      modifies this`selectedGateway
      ensures old(selectedGateway).None? ==> r == Err(NoSelection) && selectedGateway == None
      ensures old(selectedGateway).Some? && (forall i | 0 <= i < |old(selectedGateway.value.params)| :: old(selectedGateway.value.params)[i].name != name) ==>
                r == Err(NoSuchParam(name)) && selectedGateway == old(selectedGateway)
      ensures old(selectedGateway).Some? && (exists i | 0 <= i < |old(selectedGateway.value.params)| :: old(selectedGateway.value.params)[i].name == name) ==>
                && r == Ok(())
                && selectedGateway == Some(old(selectedGateway.value).(params := WithPath(old(selectedGateway.value.params), name, path)))
    {
      match selectedGateway {
        case None =>
          r := Err(NoSelection);
        case Some(g) =>
          match FirstIndex(g.params, (p: EditParam) => p.name == name) {
            case None =>
              r := Err(NoSuchParam(name));
            case Some(i) =>
              selectedGateway := Some(g.(params := WithPath(g.params, name, path)));
              r := Ok(());
          }
      }
    }

    /** `createNewGateway()`: selects a fresh default form. */
    method CreateNewGateway()
      modifies this`selectedGateway
      ensures selectedGateway == Some(NewGateway())
    {
      selectedGateway := Some(NewGateway());
    }
  }
}
