/** The one-off repair script fix_client_types.py: rows of `clients` whose
    `client_type` is not one of the enum labels are rewritten through a
    table from display names to labels. The database connection, the
    progress messages and the exit codes are not modelled; the table is a
    sequence of (id, client type) rows with distinct ids. */
module FixClientTypes {
  import opened Base
  import opened Models

  /** The display name of each client type, and the label it becomes. */
  const Mapping: map<string, string> := map[
    "Individual" := "individual",
    "Sole Proprietorship" := "sole_proprietorship",
    "Partnership" := "partnership",
    "LLP" := "llp",
    "HUF" := "huf",
    "Private Limited Company" := "private_limited",
    "Public Limited Company" := "limited_company",
    "Joint Venture" := "joint_venture",
    "One Person Company" := "one_person_company",
    "NGO's" := "ngo",
    "NGO" := "ngo",
    "Trust" := "trust",
    "Section 8 Company" := "section_8_company",
    "Government Entity" := "government_entity",
    "Cooperative Society" := "cooperative_society",
    "Branch Office" := "branch_office",
    "AOP" := "aop",
    "Society" := "society"
  ]

  /** The labels the selecting query treats as valid. */
  const ValidTypes: seq<string> := [
    "individual", "sole_proprietorship", "partnership", "llp", "huf",
    "private_limited", "limited_company", "joint_venture", "one_person_company",
    "ngo", "trust", "section_8_company", "government_entity",
    "cooperative_society", "branch_office", "aop", "society"
  ]

  /** A row of `clients` as the script sees it. */
  datatype Row = Row(id: Uuid, clientType: string)

  predicate DistinctIds(rows: seq<Row>) {
    forall i, j :: 0 <= i < |rows| && 0 <= j < |rows| && rows[i].id == rows[j].id ==> i == j
  }

  /** The query's valid labels are the enum's labels. */
  lemma ValidTypesAreEnum()
    ensures ValidTypes == ClientTypeEnum
  {
  }

  /** Every label a display name maps to is valid. */
  lemma MappingTargetsValid()
    ensures forall k :: k in Mapping ==> Mapping[k] in ValidTypes
  {
  }

  /** No display name is itself a valid label, so a mapped row is always
      one the query selects. */
  lemma MappingKeysInvalid()
    ensures forall k :: k in Mapping ==> k !in ValidTypes
  {
  }

  /** Two display names map to the same label. */
  lemma MappingNotInjective()
    ensures "NGO's" in Mapping && "NGO" in Mapping && "NGO's" != "NGO"
    ensures Mapping["NGO's"] == Mapping["NGO"]
  {
  }

  /** The rows the selecting query returns: those with an invalid type. */
  function Invalid(rows: seq<Row>): (bad: seq<Row>)
    ensures forall r :: r in bad <==> r in rows && r.clientType !in ValidTypes
  {
    if rows == [] then []
    else if rows[0].clientType in ValidTypes then Invalid(rows[1..])
    else [rows[0]] + Invalid(rows[1..])
  }

  /** What the script leaves of one row: an invalid type with a mapping is
      replaced by its label; a valid type, or an invalid one without a
      mapping, is kept. */
  function Fixed(r: Row): (r': Row)
    ensures r'.id == r.id
    ensures r.clientType in ValidTypes ==> r' == r
    ensures r.clientType !in Mapping ==> r' == r
    ensures r.clientType !in ValidTypes && r.clientType in Mapping ==> r'.clientType == Mapping[r.clientType]
  {
    if r.clientType !in ValidTypes && r.clientType in Mapping then r.(clientType := Mapping[r.clientType]) else r
  }

  /** A second run changes nothing: every row the first run rewrote now has
      a valid type. */
  lemma FixedIdempotent(r: Row)
    ensures Fixed(Fixed(r)) == Fixed(r)
    ensures r.clientType in Mapping ==> Fixed(r).clientType in ValidTypes
  {
    MappingTargetsValid();
  }

  /** `UPDATE clients SET client_type = v WHERE id = id`. */
  function SetTypeById(rows: seq<Row>, id: Uuid, v: string): (rows': seq<Row>)
    ensures |rows'| == |rows|
    ensures forall k :: 0 <= k < |rows| ==> rows'[k] == if rows[k].id == id then rows[k].(clientType := v) else rows[k]
  {
    seq(|rows|, k requires 0 <= k < |rows| => if rows[k].id == id then rows[k].(clientType := v) else rows[k])
  }

  /** The number of rows whose type is a display name of the mapping. */
  function CountMapped(rows: seq<Row>): nat {
    if rows == [] then 0 else (if rows[0].clientType in Mapping then 1 else 0) + CountMapped(rows[1..])
  }

  /** The number of positions at which two tables of the same length differ. */
  function Changed(a: seq<Row>, b: seq<Row>): (n: nat)
    requires |a| == |b|
    ensures n <= |a|
    ensures n == 0 <==> a == b
  {
    if a == [] then 0 else (if a[0] != b[0] then 1 else 0) + Changed(a[1..], b[1..])
  }

  /** The reported count is the number of rows the script changed. */
  lemma {:induction false} CountIsChanged(rows: seq<Row>, fixed: seq<Row>)
    requires |fixed| == |rows|
    requires forall k :: 0 <= k < |rows| ==> fixed[k] == Fixed(rows[k])
    ensures CountMapped(Invalid(rows)) == Changed(rows, fixed)
  {
    if rows != [] {
      MappingTargetsValid();
      CountIsChanged(rows[1..], fixed[1..]);
      if rows[0].clientType !in ValidTypes && rows[0].clientType in Mapping {
        assert fixed[0].clientType in ValidTypes;
      }
    }
  }

  /** The script: select the invalid rows, rewrite each one that has a
      mapping by its id, and report how many selected rows had one. */
  method FixClientTypes(table: seq<Row>) returns (table': seq<Row>, updated: nat)
    requires DistinctIds(table)
    ensures |table'| == |table|
    ensures forall k :: 0 <= k < |table| ==> table'[k] == Fixed(table[k])
    ensures updated == Changed(table, table')
  {
    var invalid := Invalid(table);
    table' := table;
    var i := 0;
    while i < |invalid|
      invariant 0 <= i <= |invalid|
      invariant |table'| == |table|
      invariant forall k :: 0 <= k < |table| ==>
                  table'[k] == if table[k] in invalid[..i] then Fixed(table[k]) else table[k]
    {
      var row := invalid[i];
      if row.clientType in Mapping {
        table' := SetTypeById(table', row.id, Mapping[row.clientType]);
      }
      forall k | 0 <= k < |table|
        ensures table'[k] == if table[k] in invalid[..i + 1] then Fixed(table[k]) else table[k]
      {
        assert invalid[..i + 1] == invalid[..i] + [row];
      }
      i := i + 1;
    }
    assert invalid[..i] == invalid;
    updated := CountMapped(invalid);
    CountIsChanged(table, table');
  }
}
