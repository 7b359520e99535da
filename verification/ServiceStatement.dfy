/** The one statement that deletes the rows of a list of services, and how the database reads it. */
module ServiceStatement {
  import opened Wrappers

  const STATEMENT := "delete from service_status where (name, project_name) in ( "
  const STATEMENT_END := " )"
  const TUPLE := " (?,?)"

  datatype ServiceKey = ServiceKey(name: string, project: string)

  /** The placeholders of n services. */
  function Placeholders(n: nat): string {
    if n == 0 then "" else if n == 1 then TUPLE else Placeholders(n - 1) + "," + TUPLE
  }

  function Parameters(services: seq<ServiceKey>): seq<string> {
    if services == [] then [] else [services[0].name, services[0].project] + Parameters(services[1..])
  }

  method GenerateDeleteServiceByNamesSQL(services: seq<ServiceKey>) returns (sql: string, params: seq<string>)
    ensures sql == STATEMENT + Placeholders(|services|) + STATEMENT_END
    ensures params == Parameters(services)
  {
    var values := "";
    params := [];
    for i := 0 to |services|
      invariant values == Placeholders(i)
      invariant params + Parameters(services[i..]) == Parameters(services)
    {
      params := params + [services[i].name, services[i].project];
      if i != 0 {
        values := values + ",";
      }
      values := values + TUPLE;
      assert services[i..][1..] == services[i + 1..];
      assert "" + TUPLE == TUPLE;
    }
    sql := STATEMENT + values + STATEMENT_END;
  }

  /** How the database reads a list of placeholder pairs: one pair of parameters per tuple, in
      order, and nothing left over on either side. */
  function BindTuples(values: string, params: seq<string>): Option<seq<ServiceKey>>
    decreases |values|
  {
    if !(TUPLE <= values) || |params| < 2 then None
    else
      var key := ServiceKey(params[0], params[1]);
      var rest := values[|TUPLE|..];
      if rest == "" then (if |params| == 2 then Some([key]) else None)
      else if rest[0] != ',' then None
      else
        match BindTuples(rest[1..], params[2..])
        case None => None
        case Some(keys) => Some([key] + keys)
  }

  lemma {:induction false} PlaceholdersFromFront(n: nat)
    requires n >= 2
    ensures Placeholders(n) == TUPLE + "," + Placeholders(n - 1)
  {
    if n > 2 {
      PlaceholdersFromFront(n - 1);
      assert (TUPLE + "," + Placeholders(n - 2)) + "," + TUPLE == TUPLE + "," + (Placeholders(n - 2) + "," + TUPLE);
    }
  }

  /** The first pair of placeholders binds the first pair of parameters. */
  lemma {:induction false} BindFirst(values: string, key: ServiceKey, params: seq<string>)
    requires values != ""
    ensures BindTuples(TUPLE + "," + values, [key.name, key.project] + params) ==
            match BindTuples(values, params) case None => None case Some(keys) => Some([key] + keys)
  {
    var all, both := TUPLE + "," + values, [key.name, key.project] + params;
    assert TUPLE <= all && all[|TUPLE|..] == "," + values;
    assert ("," + values)[1..] == values;
    assert both[0] == key.name && both[1] == key.project && both[2..] == params;
  }

  lemma {:induction false} BindOnly(values: string, params: seq<string>)
    requires values == TUPLE && |params| == 2
    ensures BindTuples(values, params) == Some([ServiceKey(params[0], params[1])])
  {
    assert values[|TUPLE|..] == "";
  }

  /** The generated statement binds exactly the given services, in order; it is no statement for an empty list. */
  lemma {:induction false} StatementBindsServices(services: seq<ServiceKey>)
    ensures BindTuples(Placeholders(|services|), Parameters(services)) ==
            if services == [] then None else Some(services)
    decreases |services|
  {
    if services == [] {
      assert !(TUPLE <= "");
    } else {
      var key, rest := services[0], services[1..];
      assert services == [key] + rest;
      assert Parameters(services) == [key.name, key.project] + Parameters(rest);
      if rest == [] {
        assert Parameters(rest) == [];
        assert Parameters(services) == [key.name, key.project];
        assert services == [ServiceKey(Parameters(services)[0], Parameters(services)[1])];
        BindOnly(Placeholders(|services|), Parameters(services));
      } else {
        StatementBindsServices(rest);
        PlaceholdersFromFront(|services|);
        assert Placeholders(|rest|) != "";
        BindFirst(Placeholders(|rest|), key, Parameters(rest));
      }
    }
  }
}
