/**
 Masking credentials for the editor and restoring them on save (`redact` and `preserve_secrets` of
 catalog_service/src/management.py), on arbitrary JSON values.
 */
module Secrets {
  datatype Json =
    | Null
    | Bool(b: bool)
    | Num(n: int)
    | Str(s: string)
    | List(items: seq<Json>)
    | Obj(fields: map<string, Json>)

  const MASK := Str("••••")

  const SECRET_FIELDS := {"api_key", "apiKey", "headers", "extra_headers", "environment"}

  predicate Truthy(v: Json)
  {
    match v
    case Null => false
    case Bool(b) => b
    case Num(n) => n != 0
    case Str(s) => s != ""
    case List(items) => items != []
    case Obj(fields) => fields != map[]
  }

  function Get(v: Json, key: string): Json
  {
    if v.Obj? && key in v.fields then v.fields[key] else Null
  }

  predicate Masked(key: string, v: Json)
  {
    key in SECRET_FIELDS && Truthy(v)
  }

  function Mask(v: Json): Json
  {
    if v.Obj? then Obj(map n | n in v.fields :: MASK) else MASK
  }

  function Redact(v: Json): Json
  {
    match v
    case Obj(fields) => Obj(map k | k in fields :: if Masked(k, fields[k]) then Mask(fields[k]) else Redact(fields[k]))
    case List(items) => List(seq(|items|, i requires 0 <= i < |items| => Redact(items[i])))
    case _ => v
  }

  /** len(), as far as enumerate() accepts the value. */
  function Length(v: Json): nat
  {
    match v
    case List(items) => |items|
    case Str(s) => |s|
    case Obj(fields) => |fields|
    case _ => 0
  }

  function Digits(n: nat): string
  {
    if n < 10 then ["0123456789"[n]] else Digits(n / 10) + ["0123456789"[n % 10]]
  }

  /** The deployments a model in the old single-key form stands for. */
  function LegacyDeployments(stored: Json): Json
  {
    var key := Get(stored, "api_key");
    List([Obj(map["id" := Str("primary"), "api_key" := key])] +
         seq(Length(Get(stored, "additional_base_urls")),
             i requires 0 <= i => Obj(map["id" := Str("extra-" + Digits(i + 1)), "api_key" := key])))
  }

  function Previous(edited: map<string, Json>, stored: Json): map<string, Json>
  {
    var previous := if stored.Obj? then stored.fields else map[];
    if Truthy(Get(Obj(edited), "deployments")) && !Truthy(Get(stored, "deployments")) && Truthy(Get(stored, "api_key"))
    then previous["deployments" := LegacyDeployments(stored)] else previous
  }

  predicate HasId(v: Json)
  {
    v.Obj? && "id" in v.fields
  }

  /** previous.get(id, {}): the last row with that id. */
  function RowWithId(rows: seq<Json>, id: Json): Json
  {
    if rows == [] then Obj(map[])
    else if HasId(rows[|rows| - 1]) && rows[|rows| - 1].fields["id"] == id then rows[|rows| - 1]
    else RowWithId(rows[..|rows| - 1], id)
  }

  function RowsOf(stored: Json): seq<Json>
  {
    if stored.List? then stored.items else []
  }

  function Preserve(edited: Json, stored: Json): Json
    decreases edited
  {
    if edited == MASK then stored else
      match edited
      case Obj(fields) =>
        var previous := Previous(fields, stored);
        Obj(map k | k in fields :: Preserve(fields[k], Get(Obj(previous), k)))
      case List(items) =>
        List(seq(|items|, i requires 0 <= i < |items| =>
          if HasId(items[i]) then Preserve(items[i], RowWithId(RowsOf(stored), items[i].fields["id"])) else items[i]))
      case _ => edited
  }

  // ---------------------------------------------------------------- redaction

  /** No credential is left readable. */
  predicate Hidden(v: Json)
  {
    match v
    case Obj(fields) => forall k | k in fields ::
      if Masked(k, fields[k]) then fields[k] == Mask(fields[k]) else Hidden(fields[k])
    case List(items) => forall i | 0 <= i < |items| :: Hidden(items[i])
    case _ => true
  }

  lemma MaskTwice(v: Json)
    ensures Mask(Mask(v)) == Mask(v)
  {
  }

  lemma {:induction false} RedactHides(v: Json)
    ensures Hidden(Redact(v)) && (Truthy(Redact(v)) <==> Truthy(v))
  {
    match v
    case Obj(fields) =>
      var r := Redact(v).fields;
      assert r.Keys == fields.Keys;
      forall k | k in r ensures if Masked(k, r[k]) then r[k] == Mask(r[k]) else Hidden(r[k]) {
        if Masked(k, fields[k]) { MaskTwice(fields[k]); } else { RedactHides(fields[k]); }
      }
      if fields != map[] { var k :| k in fields; assert k in r; }
    case List(items) =>
      forall i | 0 <= i < |items| ensures Hidden(Redact(v).items[i]) { RedactHides(items[i]); }
    case _ =>
  }

  /** Redaction changes exactly the values in which a credential is readable. */
  lemma {:induction false} RedactFixes(v: Json)
    ensures Redact(v) == v <==> Hidden(v)
  {
    match v
    case Obj(fields) =>
      var r := Redact(v).fields;
      forall k | k in fields
        ensures r[k] == fields[k] <==>
                  (if Masked(k, fields[k]) then fields[k] == Mask(fields[k]) else Hidden(fields[k]))
      {
        if !Masked(k, fields[k]) { RedactFixes(fields[k]); }
      }
      if Hidden(v) { assert r == fields; }
    case List(items) =>
      var r := Redact(v).items;
      forall i | 0 <= i < |items| ensures r[i] == items[i] <==> Hidden(items[i]) { RedactFixes(items[i]); }
      if Hidden(v) { assert r == items; }
    case _ =>
  }

  lemma RedactTwice(v: Json)
    ensures Redact(Redact(v)) == Redact(v)
  {
    RedactHides(v);
    RedactFixes(Redact(v));
  }

  // --------------------------------------------------------------- round trip

  /** Nothing to hide and nothing hidden. */
  predicate Plain(v: Json)
  {
    match v
    case Obj(fields) => forall k | k in fields :: !Masked(k, fields[k]) && Plain(fields[k])
    case List(items) => forall i | 0 <= i < |items| :: Plain(items[i])
    case _ => v != MASK
  }

  /** No later row has this row's id, so that the lookup by id finds this very row. */
  predicate LastWithId(rows: seq<Json>, i: nat)
    requires i < |rows| && HasId(rows[i])
  {
    forall j | i < j < |rows| && HasId(rows[j]) :: rows[j].fields["id"] != rows[i].fields["id"]
  }

  /** A row with an id that is not plain can be found by it: the id is a string that no later row repeats. */
  predicate WellKeyed(v: Json)
  {
    match v
    case Obj(fields) => forall k | k in fields && !Masked(k, fields[k]) :: WellKeyed(fields[k])
    case List(items) =>
      forall i | 0 <= i < |items| && HasId(items[i]) && !Plain(items[i]) ::
        WellKeyed(items[i]) && items[i].fields["id"].Str? && LastWithId(items, i)
    case _ => true
  }

  /** A plain value passes through masking and restoring whatever was stored. */
  lemma {:induction false} PlainKept(v: Json, stored: Json)
    requires Plain(v)
    ensures Hidden(v) && Preserve(v, stored) == v
    decreases v
  {
    match v
    case Obj(fields) =>
      var restored := Preserve(v, stored).fields;
      forall k | k in fields ensures Hidden(fields[k]) && restored[k] == fields[k] {
        PlainKept(fields[k], Get(Obj(Previous(fields, stored)), k));
      }
      assert restored == fields;
    case List(items) =>
      var restored := Preserve(v, stored).items;
      forall i | 0 <= i < |items| ensures Hidden(items[i]) && restored[i] == items[i] {
        PlainKept(items[i], if HasId(items[i]) then RowWithId(RowsOf(stored), items[i].fields["id"]) else Null);
      }
      assert restored == items;
    case _ =>
  }

  lemma {:induction false} PlainRestorable(v: Json)
    requires Plain(v)
    ensures Restorable(v)
  {
    match v
    case Obj(fields) => forall k | k in fields ensures Restorable(fields[k]) { PlainRestorable(fields[k]); }
    case List(items) =>
      forall i | 0 <= i < |items| ensures Restorable(items[i]) && Hidden(items[i]) {
        PlainRestorable(items[i]);
        PlainKept(items[i], Null);
      }
    case _ =>
  }

  /** A masked map that looks like a model in the old form: its key `deployments` would be rebuilt. */
  predicate Rebuilt(v: Json)
  {
    v.Obj? && "deployments" in v.fields && !Truthy(v.fields["deployments"]) && Truthy(Get(v, "api_key"))
  }

  /** What survives masking and restoring: no masked map is rebuilt, and no row without an id holds a credential. */
  predicate Restorable(v: Json)
  {
    match v
    case Obj(fields) =>
      forall k | k in fields :: if Masked(k, fields[k]) then !Rebuilt(fields[k]) else Restorable(fields[k])
    case List(items) =>
      forall i | 0 <= i < |items| :: if HasId(items[i]) then Restorable(items[i]) else Hidden(items[i])
    case _ => true
  }

  lemma MaskRestored(v: Json)
    ensures Preserve(Mask(v), v) == v <==> !Rebuilt(v)
  {
    if v.Obj? {
      var fields := Mask(v).fields;
      var restored := Preserve(Mask(v), v).fields;
      assert restored.Keys == v.fields.Keys;
      forall k | k in fields ensures restored[k] == Get(Obj(Previous(fields, v)), k) {
        assert fields[k] == MASK &&
          Preserve(MASK, Get(Obj(Previous(fields, v)), k)) == Get(Obj(Previous(fields, v)), k);
      }
      assert Truthy(Get(Obj(fields), "deployments")) <==> "deployments" in v.fields;
      if Rebuilt(v) {
        assert restored["deployments"] == LegacyDeployments(v);
        assert Truthy(LegacyDeployments(v));
      } else {
        assert Previous(fields, v) == v.fields;
        assert forall k | k in fields :: restored[k] == v.fields[k];
        assert restored == v.fields;
      }
    }
  }

  lemma {:induction false} RowFound(rows: seq<Json>, i: nat)
    requires i < |rows| && HasId(rows[i]) && LastWithId(rows, i)
    ensures RowWithId(rows, rows[i].fields["id"]) == rows[i]
    decreases |rows|
  {
    if i < |rows| - 1 {
      assert forall j | i < j < |rows| - 1 :: rows[..|rows| - 1][j] == rows[j];
      RowFound(rows[..|rows| - 1], i);
    }
  }

  lemma RedactedTop(v: Json)
    ensures Redact(v) == MASK <==> v == MASK
    ensures HasId(Redact(v)) <==> HasId(v)
    ensures HasId(v) && v.fields["id"].Str? ==> Redact(v).fields["id"] == v.fields["id"]
  {
  }

  /** Saving what the editor was shown changes nothing, exactly when every credential can be told apart. */
  lemma {:induction false} RoundTrip(v: Json)
    requires WellKeyed(v)
    ensures Preserve(Redact(v), v) == v <==> Restorable(v)
  {
    RedactedTop(v);
    match v
    case Obj(fields) => RoundTripObject(fields);
    case List(items) => RoundTripList(items);
    case _ =>
  }

  lemma {:induction false} RoundTripObject(fields: map<string, Json>)
    requires WellKeyed(Obj(fields))
    ensures Preserve(Redact(Obj(fields)), Obj(fields)) == Obj(fields) <==> Restorable(Obj(fields))
    decreases Obj(fields), 0
  {
    var r := Redact(Obj(fields)).fields;
    var restored := Preserve(Obj(r), Obj(fields)).fields;
    if "deployments" in fields { RedactHides(fields["deployments"]); }
    assert Previous(r, Obj(fields)) == fields;
    forall k | k in fields
      ensures restored[k] == fields[k] <==>
                (if Masked(k, fields[k]) then !Rebuilt(fields[k]) else Restorable(fields[k]))
    {
      if Masked(k, fields[k]) { MaskRestored(fields[k]); } else { RoundTrip(fields[k]); }
    }
    assert restored.Keys == fields.Keys;
    if Restorable(Obj(fields)) { assert restored == fields; }
  }

  lemma {:induction false} RoundTripList(items: seq<Json>)
    requires WellKeyed(List(items))
    ensures Preserve(Redact(List(items)), List(items)) == List(items) <==> Restorable(List(items))
    decreases List(items), 0
  {
    var r := Redact(List(items)).items;
    var restored := Preserve(List(r), List(items)).items;
    forall i | 0 <= i < |items|
      ensures restored[i] == items[i] <==> (if HasId(items[i]) then Restorable(items[i]) else Hidden(items[i]))
    {
      RedactedTop(items[i]);
      if HasId(items[i]) && !Plain(items[i]) {
        RowFound(items, i);
        RoundTrip(items[i]);
      } else {
        RedactFixes(items[i]);
        if HasId(items[i]) {
          PlainKept(items[i], RowWithId(items, items[i].fields["id"]));
          PlainRestorable(items[i]);
        }
      }
    }
    if Restorable(List(items)) { assert restored == items; }
  }

  /** The row is an edited version of the stored row k. */
  predicate VersionOf(row: Json, stored: seq<Json>, k: nat)
  {
    k < |stored| && HasId(row) && HasId(stored[k]) && row.fields["id"] == stored[k].fields["id"] &&
      LastWithId(stored, k)
  }

  /** Rows are matched by id, never by position: `at` says which stored row each edited row is a version of. */
  lemma RowsFollowTheirId(edited: seq<Json>, stored: seq<Json>, at: seq<nat>)
    requires |at| == |edited| && forall i | 0 <= i < |edited| :: VersionOf(edited[i], stored, at[i])
    ensures forall i | 0 <= i < |edited| ::
              at[i] < |stored| && Preserve(List(edited), List(stored)).items[i] == Preserve(edited[i], stored[at[i]])
  {
    forall i | 0 <= i < |edited|
      ensures Preserve(List(edited), List(stored)).items[i] == Preserve(edited[i], stored[at[i]])
    {
      RowFound(stored, at[i]);
    }
  }

  /** Reordering, repeating or dropping rows restores each remaining row as it was stored. */
  lemma RowsRestored(stored: seq<Json>, at: seq<nat>)
    requires WellKeyed(List(stored))
    requires forall i | 0 <= i < |at| :: at[i] < |stored| && HasId(stored[at[i]]) && Restorable(stored[at[i]])
    ensures Preserve(List(seq(|at|, i requires 0 <= i < |at| => Redact(stored[at[i]]))), List(stored)) ==
            List(seq(|at|, i requires 0 <= i < |at| => stored[at[i]]))
  {
    var edited := seq(|at|, i requires 0 <= i < |at| => Redact(stored[at[i]]));
    var restored := Preserve(List(edited), List(stored)).items;
    forall i | 0 <= i < |at| ensures restored[i] == stored[at[i]] { RowRestored(stored, at[i]); }
  }

  lemma RowRestored(stored: seq<Json>, i: nat)
    requires WellKeyed(List(stored)) && i < |stored| && HasId(stored[i]) && Restorable(stored[i])
    ensures HasId(Redact(stored[i]))
    ensures Preserve(Redact(stored[i]), RowWithId(stored, Redact(stored[i]).fields["id"])) == stored[i]
  {
    RedactedTop(stored[i]);
    if Plain(stored[i]) {
      PlainKept(stored[i], Null);
      RedactFixes(stored[i]);
      PlainKept(stored[i], RowWithId(stored, stored[i].fields["id"]));
    } else {
      RowFound(stored, i);
      RoundTrip(stored[i]);
    }
  }

  lemma {:induction false} SomeRowFound(rows: seq<Json>, j: nat)
    requires j < |rows| && HasId(rows[j])
    ensures RowWithId(rows, rows[j].fields["id"]) in rows
    decreases |rows|
  {
    if j < |rows| - 1 && !(HasId(rows[|rows| - 1]) && rows[|rows| - 1].fields["id"] == rows[j].fields["id"]) {
      SomeRowFound(rows[..|rows| - 1], j);
    }
  }

  /** A mask left in place takes the stored value, in every field but `deployments`. */
  lemma MaskTakesStored(edited: Json, stored: Json, key: string)
    requires edited.Obj? && key in edited.fields && edited.fields[key] == MASK && key != "deployments"
    ensures Get(Preserve(edited, stored), key) == Get(stored, key)
  {
    assert Get(Obj(Previous(edited.fields, stored)), key) == Get(stored, key);
    assert Preserve(edited, stored).fields[key] == Preserve(MASK, Get(stored, key));
  }

  /** A model saved in the old single-key form keeps its key when the editor turns it into deployments. */
  lemma LegacyKeySurvives(edited: map<string, Json>, stored: Json, i: nat, j: nat)
    requires !Truthy(Get(stored, "deployments")) && Truthy(Get(stored, "api_key"))
    requires "deployments" in edited && edited["deployments"].List? && i < |edited["deployments"].items|
    requires j < |LegacyDeployments(stored).items|
    requires var row := edited["deployments"].items[i];
             HasId(row) && row.fields["id"] == LegacyDeployments(stored).items[j].fields["id"] &&
               Get(row, "api_key") == MASK
    ensures var saved := Preserve(Obj(edited), stored).fields["deployments"];
            saved.List? && i < |saved.items| && Get(saved.items[i], "api_key") == Get(stored, "api_key")
  {
    var rows, row := LegacyDeployments(stored).items, edited["deployments"].items[i];
    SomeRowFound(rows, j);
    var found := RowWithId(rows, row.fields["id"]);
    assert Get(found, "api_key") == Get(stored, "api_key");
    MaskTakesStored(row, found, "api_key");
    var saved := Preserve(Obj(edited), stored).fields["deployments"];
    assert saved == Preserve(edited["deployments"], LegacyDeployments(stored));
    assert saved.items[i] == Preserve(row, found);
  }

  /** A masked row without an id is stored with the mask in place of its credential. */
  lemma RowWithoutIdLosesItsKey()
    ensures var v := List([Obj(map["api_key" := Str("k")])]);
            WellKeyed(v) && Preserve(Redact(v), v) == List([Obj(map["api_key" := MASK])])
  {
    var row := Obj(map["api_key" := Str("k")]);
    var v := List([row]);
    assert Redact(row).fields == map["api_key" := MASK];
    assert !HasId(row) && !HasId(Redact(row));
    assert Redact(v).items == [Redact(row)];
    assert Preserve(Redact(v), v).items == [Redact(row)];
    assert WellKeyed(v) by { assert v.items[0] == row; }
  }
}
