/**
 * The SQLite schema the proxy manager creates at start-up (`prepare_database`
 * in `bin/luminati.js`): for each table one `CREATE TABLE` statement followed
 * by one `CREATE INDEX` statement per indexed column.
 */
module Schema {

  /**
   * A column description: either a bare SQL type, or an object with a type
   * and the `primary`, `default`, `index` and `unique` options (`default` is
   * "" when absent).
   */
  datatype FieldSpec =
    | Plain(sqlType: string)
    | Column(colType: string, primary: bool, default: string, index: bool, unique: bool)

  type Field = (string, FieldSpec)

  /** The column definition that goes into `CREATE TABLE`. */
  function ColumnDef(name: string, spec: FieldSpec): (d: string)
    ensures |d| > |name| && d[..|name| + 1] == name + " "
  {
    match spec
    case Plain(t) => name + " " + t
    case Column(t, primary, dflt, _, _) =>
      if primary then name + " " + t + " PRIMARY KEY"
      else if dflt != "" then name + " " + t + " DEFAULT " + dflt
      else name + " " + t
  }

  /** Only an indexed column object that is not the primary key gets its own index. */
  predicate HasIndex(spec: FieldSpec)
  {
    spec.Column? && !spec.primary && spec.index
  }

  /** `CREATE %s INDEX IF NOT EXISTS %s ON %s(%s)`, the first slot "UNIQUE" or empty. */
  function IndexQuery(table: string, name: string, unique: bool): (q: string)
    ensures |q| > |name| + 2 && q[|q| - |name| - 2..] == "(" + name + ")"
  {
    "CREATE " + (if unique then "UNIQUE" else "") + " INDEX IF NOT EXISTS " + name + " ON " + table + "(" + name + ")"
  }

  function CreateTable(table: string, columns: string): string
  {
    "CREATE TABLE IF NOT EXISTS " + table + "(" + columns + ")"
  }

  /** `parts.join(sep)`, "" for no parts. */
  function JoinWith(parts: seq<string>, sep: string): string
  {
    if parts == [] then "" else if |parts| == 1 then parts[0] else parts[0] + sep + JoinWith(parts[1..], sep)
  }

  /** The column definitions of the first `n` fields. */
  function Columns(fs: seq<Field>, n: nat): (cs: seq<string>)
    requires n <= |fs|
    ensures |cs| == n
    ensures forall i :: 0 <= i < n ==> cs[i] == ColumnDef(fs[i].0, fs[i].1)
  {
    if n == 0 then [] else Columns(fs, n - 1) + [ColumnDef(fs[n - 1].0, fs[n - 1].1)]
  }

  /** The index statements of the first `n` fields, in field order. */
  function Indexes(table: string, fs: seq<Field>, n: nat): seq<string>
    requires n <= |fs|
  {
    if n == 0 then []
    else if HasIndex(fs[n - 1].1) then Indexes(table, fs, n - 1) + [IndexQuery(table, fs[n - 1].0, fs[n - 1].1.unique)]
    else Indexes(table, fs, n - 1)
  }

  /** Every statement for one table, in the order they are run. */
  function TableSchema(table: string, fs: seq<Field>): seq<string>
  {
    [CreateTable(table, JoinWith(Columns(fs, |fs|), ", "))] + Indexes(table, fs, |fs|)
  }

  /** The loop over one table's fields, then `queries.unshift(CREATE TABLE ...)`. */
  method TableQueries(table: string, fs: seq<Field>) returns (queries: seq<string>)
    ensures queries == TableSchema(table, fs)
  {
    var fields: seq<string> := [];
    queries := [];
    var i := 0;
    while i < |fs|
      invariant 0 <= i <= |fs|
      invariant fields == Columns(fs, i)
      invariant queries == Indexes(table, fs, i)
    {
      var (name, spec) := fs[i];
      match spec {
        case Plain(t) =>
        fields := fields + [name + " " + t];
      case Column(t, primary, dflt, index, unique) =>
        if primary {
          fields := fields + [name + " " + t + " PRIMARY KEY"];
        } else {
          var def := name + " " + t;
          if dflt != "" {
            def := def + " DEFAULT " + dflt;
          }
          fields := fields + [def];
          if index {
            queries := queries + [IndexQuery(table, name, unique)];
          }
        }
      }
      i := i + 1;
    }
    queries := [CreateTable(table, JoinWith(fields, ", "))] + queries;
  }

  /** The number of fields among the first `n` that get an index. */
  function CountIndexed(fs: seq<Field>, n: nat): nat
    requires n <= |fs|
  {
    if n == 0 then 0 else CountIndexed(fs, n - 1) + (if HasIndex(fs[n - 1].1) then 1 else 0)
  }

  /**
   * The index statements are exactly one per indexed field: each indexed field
   * has its statement, and each statement belongs to an indexed field.
   */
  lemma {:induction false} IndexesExact(table: string, fs: seq<Field>, n: nat)
    requires n <= |fs|
    ensures |Indexes(table, fs, n)| == CountIndexed(fs, n)
    ensures forall i :: 0 <= i < n && HasIndex(fs[i].1) ==>
              IndexQuery(table, fs[i].0, fs[i].1.unique) in Indexes(table, fs, n)
    ensures forall q :: q in Indexes(table, fs, n) ==>
              exists i :: 0 <= i < n && HasIndex(fs[i].1) && q == IndexQuery(table, fs[i].0, fs[i].1.unique)
  {
    if n > 0 {
      IndexesExact(table, fs, n - 1);
    }
  }

  /** A table's statements: the `CREATE TABLE` first, then one index per indexed field. */
  lemma TableSchemaShape(table: string, fs: seq<Field>)
    ensures |TableSchema(table, fs)| == 1 + CountIndexed(fs, |fs|)
    ensures TableSchema(table, fs)[0] == CreateTable(table, JoinWith(Columns(fs, |fs|), ", "))
    ensures forall i :: 0 <= i < |fs| && HasIndex(fs[i].1) ==>
              IndexQuery(table, fs[i].0, fs[i].1.unique) in TableSchema(table, fs)[1..]
  {
    IndexesExact(table, fs, |fs|);
    assert TableSchema(table, fs)[1..] == Indexes(table, fs, |fs|);
  }

  /** The `ip` table. */
  function IpFields(): seq<Field>
  {
    [("ip", Column("UNSIGNED INTEGER", true, "", false, false)),
     ("timestamp", Column("INTEGER", false, "CURRENT_TIMESTAMP", false, false))]
  }

  /** The `request` table. */
  function RequestFields(): seq<Field>
  {
    [("url", Plain("TEXT")),
     ("method", Plain("TEXT")),
     ("request_headers", Plain("TEXT")),
     ("response_headers", Plain("TEXT")),
     ("status_code", Column("INTEGER", false, "", true, false)),
     ("timestamp", Column("INTEGER", false, "", true, false)),
     ("elapsed", Column("INTEGER", false, "", true, false)),
     ("timeline", Plain("TEXT")),
     ("proxy", Plain("TEXT")),
     ("username", Plain("TEXT")),
     ("content_size", Column("INTEGER", false, "", true, false))]
  }

  /** The `ip` table gets no index: its key is the primary key and the other column only has a default. */
  lemma IpSchema()
    ensures TableSchema("ip", IpFields()) == [CreateTable("ip", JoinWith(Columns(IpFields(), 2), ", "))]
  {
  }

  /** The `request` table gets four non-unique indexes, in field order. */
  lemma RequestIndexes()
    ensures TableSchema("request", RequestFields())[1..] ==
      [IndexQuery("request", "status_code", false), IndexQuery("request", "timestamp", false),
       IndexQuery("request", "elapsed", false), IndexQuery("request", "content_size", false)]
  {
    var fs := RequestFields();
    var t := "request";
    RequestIndexesUpTo7();
    assert Indexes(t, fs, 10) == Indexes(t, fs, 7) by {
      assert Indexes(t, fs, 8) == Indexes(t, fs, 7);
      assert Indexes(t, fs, 9) == Indexes(t, fs, 7);
    }
    assert Indexes(t, fs, 11) == Indexes(t, fs, 7) + [IndexQuery(t, "content_size", false)];
    assert TableSchema(t, fs)[1..] == Indexes(t, fs, 11);
  }

  /** The first seven `request` fields give the indexes of `status_code`, `timestamp` and `elapsed`. */
  lemma RequestIndexesUpTo7()
    ensures Indexes("request", RequestFields(), 7) ==
      [IndexQuery("request", "status_code", false), IndexQuery("request", "timestamp", false),
       IndexQuery("request", "elapsed", false)]
  {
    var fs := RequestFields();
    var t := "request";
    RequestNoIndexUpTo4();
    assert Indexes(t, fs, 5) == [IndexQuery(t, "status_code", false)];
    assert Indexes(t, fs, 6) == [IndexQuery(t, "status_code", false), IndexQuery(t, "timestamp", false)];
  }

  /** The four `TEXT` fields that open the `request` table get no index. */
  lemma RequestNoIndexUpTo4()
    ensures Indexes("request", RequestFields(), 4) == []
  {
    var fs := RequestFields();
    assert Indexes("request", fs, 2) == [];
  }
}
