/**
 * The Redis server entity and its schema: the columns, the loadable fields and their
 * constraints, loading a JSON body into column values (with the per-field error messages),
 * the schema-level rule that fills in the default port and keeps names unique, the dump of a
 * stored server, building or updating a server from loaded data, and the error contract of
 * the connection probe.
 */
module Models {
  import opened Common
  import opened Rest

  // ---------------------------------------------------------------------------------------
  // Columns and fields
  // ---------------------------------------------------------------------------------------

  /** The fields the schema loads; `id` and the two timestamps are dump-only. */
  datatype Field = Name | Description | Host | Port | Password

  /** The loadable fields in the order the schema declares them. */
  const Loadable: seq<Field> := [Name, Description, Host, Port, Password]

  function Key(f: Field): string {
    match f
    case Name => "name"
    case Description => "description"
    case Host => "host"
    case Port => "port"
    case Password => "password"
  }

  predicate Required(f: Field) {
    f == Name || f == Host
  }

  /** A column value. */
  datatype Value = VStr(s: string) | VInt(i: int)

  /** Column values by field; a field that is absent holds NULL. */
  type Data = map<Field, Value>

  /** The stored servers by id. */
  type Rows = map<int, Data>

  /** ServerSchema.port's `missing` is not set; this is the column default and the schema's default. */
  const DefaultPort := 6379

  // ---------------------------------------------------------------------------------------
  // Field constraints
  // ---------------------------------------------------------------------------------------

  /** validate.Length(2, 64) on `name`. */
  predicate ValidName(s: string) {
    2 <= |s| <= 64
  }

  /** validate.Length(0, 512) on `description`. */
  predicate ValidDescription(s: string) {
    |s| <= 512
  }

  /** validate.Range(1024, 65536) on `port`. */
  predicate ValidPort(p: int) {
    1024 <= p <= 65536
  }

  predicate IsDigit(c: char) {
    '0' <= c <= '9'
  }

  predicate AllDigits(s: string) {
    forall i :: 0 <= i < |s| ==> IsDigit(s[i])
  }

  /** `\d{1,3}` */
  predicate DigitGroup(g: string) {
    1 <= |g| <= 3 && AllDigits(g)
  }

  /** The pieces of `s` between dots, as `s.split('.')`. */
  function SplitDots(s: string): (r: seq<string>)
    ensures |r| >= 1
  {
    if s == [] then [[]]
    else if s[0] == '.' then [[]] + SplitDots(s[1..])
    else
      var t := SplitDots(s[1..]);
      [[s[0]] + t[0]] + t[1..]
  }

  function JoinDots(groups: seq<string>): string
    requires |groups| >= 1
  {
    if |groups| == 1 then groups[0] else groups[0] + "." + JoinDots(groups[1..])
  }

  /** Four dot-separated groups of one to three digits, and nothing else. */
  predicate DottedQuad(s: string) {
    var groups := SplitDots(s);
    |groups| == 4 && forall k :: 0 <= k < 4 ==> DigitGroup(groups[k])
  }

  /**
   * `re.match(r'^\d{1,3}\.\d{1,3}\.\d{1,3}\.\d{1,3}$', s)`: `$` also matches just before a
   * final newline.
   */
  predicate MatchesHost(s: string) {
    DottedQuad(s) || (|s| > 0 && s[|s| - 1] == '\n' && DottedQuad(s[..|s| - 1]))
  }

  function Dotted(a: string, b: string, c: string, d: string): string {
    a + "." + b + "." + c + "." + d
  }

  lemma {:induction false} JoinSplit(s: string)
    ensures JoinDots(SplitDots(s)) == s
  {
    if s != [] {
      JoinSplit(s[1..]);
      var t := SplitDots(s[1..]);
      if s[0] == '.' {
        assert SplitDots(s)[1..] == t;
      } else if |t| == 1 {
        assert s == [s[0]] + s[1..];
      } else {
        assert SplitDots(s)[1..] == t[1..];
        assert JoinDots(t) == t[0] + "." + JoinDots(t[1..]);
        assert s == [s[0]] + s[1..];
      }
    }
  }

  lemma {:induction false} SplitNoDot(a: string)
    requires '.' !in a
    ensures SplitDots(a) == [a]
  {
    if a != [] {
      SplitNoDot(a[1..]);
      assert [a[0]] + a[1..] == a;
    }
  }

  lemma {:induction false} SplitAfterGroup(a: string, rest: string)
    requires '.' !in a
    ensures SplitDots(a + "." + rest) == [a] + SplitDots(rest)
  {
    if a == [] {
      assert a + "." + rest == "." + rest;
      assert ("." + rest)[1..] == rest;
    } else {
      var s := a + "." + rest;
      assert s[0] == a[0] && s[1..] == a[1..] + "." + rest;
      SplitAfterGroup(a[1..], rest);
      assert [a[0]] + a[1..] == a;
    }
  }

  lemma DigitsHaveNoDot(g: string)
    requires AllDigits(g)
    ensures '.' !in g
  {
    forall k | 0 <= k < |g| ensures g[k] != '.' {
      assert IsDigit(g[k]);
    }
  }

  lemma QuadJoined(s: string)
    requires DottedQuad(s)
    ensures var g := SplitDots(s); s == Dotted(g[0], g[1], g[2], g[3])
  {
    var g := SplitDots(s);
    JoinSplit(s);
    assert g[1..][1..][1..] == [g[3]];
    assert JoinDots(g[1..][1..]) == g[2] + "." + g[3];
    assert JoinDots(g[1..]) == g[1] + "." + (g[2] + "." + g[3]);
    assert JoinDots(g) == g[0] + "." + (g[1] + "." + (g[2] + "." + g[3]));
  }

  lemma QuadSplit(a: string, b: string, c: string, d: string)
    requires DigitGroup(a) && DigitGroup(b) && DigitGroup(c) && DigitGroup(d)
    ensures SplitDots(Dotted(a, b, c, d)) == [a, b, c, d]
  {
    DigitsHaveNoDot(a);
    DigitsHaveNoDot(b);
    DigitsHaveNoDot(c);
    DigitsHaveNoDot(d);
    assert Dotted(a, b, c, d) == a + "." + (b + "." + (c + "." + d));
    SplitAfterGroup(a, b + "." + (c + "." + d));
    SplitAfterGroup(b, c + "." + d);
    SplitAfterGroup(c, d);
    SplitNoDot(d);
  }

  /**
   * The dotted-quad test agrees with the pattern read as a grammar: four digit groups joined
   * by dots. No octet range is implied.
   */
  lemma DottedQuadIsPattern(s: string)
    ensures DottedQuad(s) <==> exists a, b, c, d ::
      s == Dotted(a, b, c, d) && DigitGroup(a) && DigitGroup(b) && DigitGroup(c) && DigitGroup(d)
  {
    if DottedQuad(s) {
      var g := SplitDots(s);
      QuadJoined(s);
      assert DigitGroup(g[0]) && DigitGroup(g[1]) && DigitGroup(g[2]) && DigitGroup(g[3]);
    }
    if exists a, b, c, d ::
      s == Dotted(a, b, c, d) && DigitGroup(a) && DigitGroup(b) && DigitGroup(c) && DigitGroup(d)
    {
      var a, b, c, d :|
        s == Dotted(a, b, c, d) && DigitGroup(a) && DigitGroup(b) && DigitGroup(c) && DigitGroup(d);
      QuadSplit(a, b, c, d);
    }
  }

  lemma ThreeGroups(a: string, b: string, c: string)
    requires '.' !in a && '.' !in b && '.' !in c
    ensures |SplitDots(a + "." + b + "." + c)| == 3
  {
    assert a + "." + b + "." + c == a + "." + (b + "." + c);
    SplitAfterGroup(a, b + "." + c);
    SplitAfterGroup(b, c);
    SplitNoDot(c);
  }

  lemma QuadAccepted(a: string, b: string, c: string, d: string)
    requires DigitGroup(a) && DigitGroup(b) && DigitGroup(c) && DigitGroup(d)
    ensures DottedQuad(Dotted(a, b, c, d))
  {
    QuadSplit(a, b, c, d);
  }

  /** The host of the fixtures passes, and so does one with octets out of range. */
  lemma HostsAccepted()
    ensures DottedQuad("127.0.0.1") && MatchesHost("127.0.0.1")
    ensures DottedQuad("999.999.999.999") && MatchesHost("999.999.999.999")
  {
    var a, z, o, n := "127", "0", "1", "999";
    assert DigitGroup(a) && DigitGroup(z) && DigitGroup(o) && DigitGroup(n);
    QuadAccepted(a, z, z, o);
    assert "127.0.0.1" == Dotted(a, z, z, o);
    QuadAccepted(n, n, n, n);
    assert "999.999.999.999" == Dotted(n, n, n, n);
  }

  /** `$` lets one final newline through. */
  lemma TrailingNewlineAccepted()
    ensures MatchesHost("127.0.0.1\n")
  {
    HostsAccepted();
    var s := "127.0.0.1\n";
    assert s[..|s| - 1] == "127.0.0.1";
  }

  lemma ShortHostSplits()
    ensures |SplitDots("127.0.0")| == 3
    ensures SplitDots("1234.0.0.1")[0] == "1234"
  {
    var a, z, o, w := "127", "0", "1", "1234";
    assert '.' !in a && '.' !in z && '.' !in w;
    ThreeGroups(a, z, z);
    assert "127.0.0" == a + "." + z + "." + z;
    SplitAfterGroup(w, "0.0.1");
    assert "1234.0.0.1" == w + "." + "0.0.1";
  }

  /** The three-group address of the failing test is rejected, and so is a four-digit group. */
  lemma HostsRejected()
    ensures !MatchesHost("127.0.0")
    ensures !MatchesHost("1234.0.0.1")
  {
    ShortHostSplits();
    assert !DottedQuad("127.0.0");
    assert !DigitGroup("1234");
    assert !DottedQuad("1234.0.0.1");
  }

  // ---------------------------------------------------------------------------------------
  // Integer coercion
  // ---------------------------------------------------------------------------------------

  function DigitsValue(s: string): nat
    requires AllDigits(s)
  {
    if s == [] then 0
    else
      assert IsDigit(s[|s| - 1]);
      DigitsValue(s[..|s| - 1]) * 10 + (s[|s| - 1] as int - '0' as int)
  }

  /** `int(s)` for an optional sign followed by decimal digits. */
  function ParseInt(s: string): Option<int> {
    if |s| > 0 && (s[0] == '-' || s[0] == '+') then
      var digits := s[1..];
      if |digits| > 0 && AllDigits(digits) then
        Some(if s[0] == '-' then -(DigitsValue(digits) as int) else DigitsValue(digits))
      else None
    else if |s| > 0 && AllDigits(s) then Some(DigitsValue(s))
    else None
  }

  lemma {:induction false} DigitsOfNat(n: nat)
    ensures AllDigits(NatToString(n)) && DigitsValue(NatToString(n)) == n
  {
    if n >= 10 {
      DigitsOfNat(n / 10);
      var s := NatToString(n);
      assert s[..|s| - 1] == NatToString(n / 10);
    }
  }

  lemma ParseUnsigned(d: string)
    requires |d| > 0 && AllDigits(d)
    ensures ParseInt(d) == Some(DigitsValue(d))
  {
    assert IsDigit(d[0]);
  }

  lemma ParseNegative(d: string)
    requires |d| > 0 && AllDigits(d)
    ensures ParseInt("-" + d) == Some(-(DigitsValue(d) as int))
  {
    var s := "-" + d;
    assert s[0] == '-' && s[1..] == d;
  }

  /** Parsing undoes decimal rendering. */
  lemma ParseIntRoundTrip(i: int)
    ensures ParseInt(IntToString(i)) == Some(i)
  {
    if i < 0 {
      DigitsOfNat(-i);
      ParseNegative(NatToString(-i));
    } else {
      DigitsOfNat(i);
      ParseUnsigned(NatToString(i));
    }
  }

  /** What `fields.Integer` accepts: `int(value)` of a number, a boolean or a numeric string. */
  function ToInteger(v: Json): Option<int> {
    match v
    case JInt(i) => Some(i)
    case JBool(b) => Some(if b then 1 else 0)
    case JStr(s) => ParseInt(s)
    case _ => None
  }

  // ---------------------------------------------------------------------------------------
  // Loading one field
  // ---------------------------------------------------------------------------------------

  const MissingMessage := "Missing data for required field."
  const NullMessage := "Field may not be null."
  const NotStringMessage := "Not a valid string."
  const NotIntegerMessage := "Not a valid integer."
  const NameLengthMessage := "Length must be between 2 and 64."
  const DescriptionLengthMessage := "Length must be between 0 and 512."
  const PatternMessage := "String does not match expected pattern."
  const PortRangeMessage := "Must be between 1024 and 65536."
  const InvalidInputMessage := "Invalid input type."
  const DuplicateMessage := "Redis server already exists"

  /** A value the field accepts once loaded. */
  predicate Admissible(f: Field, v: Value) {
    match f
    case Name => v.VStr? && ValidName(v.s)
    case Description => v.VStr? && ValidDescription(v.s)
    case Host => v.VStr? && MatchesHost(v.s)
    case Port => v.VInt? && ValidPort(v.i)
    case Password => v.VStr?
  }

  datatype FieldResult = Absent | Loaded(value: Value) | Invalid(message: string)

  /** The message of the validator a string fails, if any. */
  function StringRule(f: Field, s: string): Option<string> {
    match f
    case Name => if ValidName(s) then None else Some(NameLengthMessage)
    case Description => if ValidDescription(s) then None else Some(DescriptionLengthMessage)
    case Host => if MatchesHost(s) then None else Some(PatternMessage)
    case _ => None
  }

  /** One field of the body: missing, null, of the wrong type, failing its validator, or loaded. */
  function LoadField(f: Field, raw: Option<Json>, partial: bool): (r: FieldResult)
    ensures raw.None? ==> r == (if Required(f) && !partial then Invalid(MissingMessage) else Absent)
    ensures raw == Some(JNull) ==> r == Invalid(NullMessage)
    ensures r.Loaded? ==> Admissible(f, r.value)
    ensures f != Port && raw.Some? && raw.value.JStr? ==>
      (r.Loaded? <==> Admissible(f, VStr(raw.value.s))) && (r.Loaded? ==> r.value == VStr(raw.value.s))
    ensures f == Port && raw.Some? && ToInteger(raw.value).Some? ==>
      (r.Loaded? <==> ValidPort(ToInteger(raw.value).value)) && (r.Loaded? ==> r.value == VInt(ToInteger(raw.value).value))
    ensures raw.Some? && raw.value != JNull && (if f == Port then ToInteger(raw.value).None? else !raw.value.JStr?) ==>
      r == Invalid(if f == Port then NotIntegerMessage else NotStringMessage)
  {
    match raw
    case None => if Required(f) && !partial then Invalid(MissingMessage) else Absent
    case Some(v) =>
      if v == JNull then Invalid(NullMessage)
      else if f == Port then
        match ToInteger(v)
        case None => Invalid(NotIntegerMessage)
        case Some(p) => if ValidPort(p) then Loaded(VInt(p)) else Invalid(PortRangeMessage)
      else if !v.JStr? then Invalid(NotStringMessage)
      else
        match StringRule(f, v.s)
        case Some(m) => Invalid(m)
        case None => Loaded(VStr(v.s))
  }

  // ---------------------------------------------------------------------------------------
  // Loading a body
  // ---------------------------------------------------------------------------------------

  /** Error messages by field name, in the order the fields were reported. */
  type Errors = seq<(string, seq<string>)>

  /**
   * `errors.setdefault(key, []).append(message)`: the message ends the list under `key`, a new
   * key goes last, and the entries under other keys stay where they were.
   */
  function AddError(errors: Errors, key: string, message: string): (r: Errors)
    ensures |r| == |errors| || |r| == |errors| + 1
    ensures |r| == |errors| + 1 <==> forall k :: 0 <= k < |errors| ==> errors[k].0 != key
    ensures |r| == |errors| + 1 ==> r[|errors|] == (key, [message])
    ensures exists k :: 0 <= k < |r| && r[k].0 == key && r[k].1 != [] && r[k].1[|r[k].1| - 1] == message
    ensures forall k :: 0 <= k < |errors| && errors[k].0 != key ==> r[k] == errors[k]
    ensures forall k :: 0 <= k < |errors| ==> r[k].0 == errors[k].0
  {
    if errors == [] then [(key, [message])]
    else if errors[0].0 == key then [(key, errors[0].1 + [message])] + errors[1..]
    else
      var rest := AddError(errors[1..], key, message);
      assert forall k :: 0 <= k < |rest| ==> ([errors[0]] + rest)[k + 1] == rest[k];
      [errors[0]] + rest
  }

  /** The fields of `fields` loaded from the body: the data of those that loaded and one error per failing one. */
  function LoadFields(entries: seq<(string, Json)>, fields: seq<Field>, partial: bool): (Data, Errors)
    decreases |fields|
  {
    if fields == [] then (map[], [])
    else
      var n := |fields| - 1;
      var (data, errors) := LoadFields(entries, fields[..n], partial);
      var f := fields[n];
      match LoadField(f, Lookup(entries, Key(f)), partial)
      case Absent => (data, errors)
      case Loaded(v) => (data[f := v], errors)
      case Invalid(m) => (data, errors + [(Key(f), [m])])
  }

  /** Whether a field of the body is reported as an error. */
  predicate Fails(entries: seq<(string, Json)>, f: Field, partial: bool) {
    LoadField(f, Lookup(entries, Key(f)), partial).Invalid?
  }

  /** The loaded data hold exactly the fields that loaded, with the values they loaded to. */
  lemma {:induction false} LoadFieldsData(entries: seq<(string, Json)>, fields: seq<Field>, partial: bool)
    requires forall i, j :: 0 <= i < j < |fields| ==> fields[i] != fields[j]
    ensures var data := LoadFields(entries, fields, partial).0;
      forall f :: f in data <==> f in fields && LoadField(f, Lookup(entries, Key(f)), partial).Loaded?
    ensures var data := LoadFields(entries, fields, partial).0;
      forall f :: f in data ==> data[f] == LoadField(f, Lookup(entries, Key(f)), partial).value
    decreases |fields|
  {
    if fields != [] {
      var n := |fields| - 1;
      LoadFieldsData(entries, fields[..n], partial);
      assert fields == fields[..n] + [fields[n]];
      assert fields[n] !in fields[..n];
    }
  }

  /** The errors are empty exactly when no field fails. */
  lemma {:induction false} LoadFieldsErrors(entries: seq<(string, Json)>, fields: seq<Field>, partial: bool)
    ensures LoadFields(entries, fields, partial).1 == [] <==> forall f :: f in fields ==> !Fails(entries, f, partial)
    decreases |fields|
  {
    if fields != [] {
      var n := |fields| - 1;
      LoadFieldsErrors(entries, fields[..n], partial);
      var errors := LoadFields(entries, fields[..n], partial).1;
      var f := fields[n];
      var loaded := LoadField(f, Lookup(entries, Key(f)), partial);
      assert LoadFields(entries, fields, partial).1
          == if loaded.Invalid? then errors + [(Key(f), [loaded.message])] else errors;
      assert fields == fields[..n] + [fields[n]];
      assert forall g :: g in fields <==> g in fields[..n] || g == fields[n];
      if loaded.Invalid? {
        assert Fails(entries, f, partial);
        assert (errors + [(Key(f), [loaded.message])])[|errors|] == (Key(f), [loaded.message]);
      } else {
        assert !Fails(entries, f, partial);
      }
    }
  }

  /**
   * The unmarshalled body: the data of the fields that loaded and the field errors. A body
   * that is not an object gives no data and the schema error.
   */
  function Unmarshal(body: Json, partial: bool): (Option<Data>, Errors) {
    if body.JDict? then
      var (data, errors) := LoadFields(body.entries, Loadable, partial);
      (Some(data), errors)
    else (None, [("_schema", [InvalidInputMessage])])
  }

  /** `rows` holds a server named `name` under `id`. */
  predicate Named(rows: Rows, id: int, name: Value) {
    id in rows && Name in rows[id] && rows[id][Name] == name
  }

  /** The first of `ids` that holds a server named `name`. */
  function FirstIn(ids: seq<int>, rows: Rows, name: Value): Option<int> {
    if ids == [] then None
    else if Named(rows, ids[0], name) then Some(ids[0])
    else FirstIn(ids[1..], rows, name)
  }

  lemma {:induction false} FirstInFinds(ids: seq<int>, rows: Rows, name: Value)
    ensures var r := FirstIn(ids, rows, name);
      r.None? <==> forall k :: 0 <= k < |ids| ==> !Named(rows, ids[k], name)
    ensures var r := FirstIn(ids, rows, name);
      r.Some? ==> exists k :: (0 <= k < |ids| && ids[k] == r.value && Named(rows, ids[k], name)
        && forall j :: 0 <= j < k ==> !Named(rows, ids[j], name))
  {
    if ids != [] && !Named(rows, ids[0], name) {
      FirstInFinds(ids[1..], rows, name);
      var r := FirstIn(ids[1..], rows, name);
      assert forall k :: 1 <= k < |ids| ==> ids[k] == ids[1..][k - 1];
      if r.Some? {
        var k :| 0 <= k < |ids[1..]| && ids[1..][k] == r.value && Named(rows, ids[1..][k], name)
          && forall j :: 0 <= j < k ==> !Named(rows, ids[1..][j], name);
        assert ids[k + 1] == r.value;
        forall j | 0 <= j < k + 1 ensures !Named(rows, ids[j], name) {
          if j > 0 { assert ids[j] == ids[1..][j - 1]; }
        }
      } else {
        forall k | 0 <= k < |ids| ensures !Named(rows, ids[k], name) {
          if k > 0 { assert ids[k] == ids[1..][k - 1]; }
        }
      }
    }
  }

  /**
   * `Server.query.filter_by(name=name).first()` in the table's scan order (ascending id): the
   * lowest id that holds a server with that name.
   */
  function FirstNamed(rows: Rows, name: Value): (r: Option<int>)
    ensures r.Some? ==> Named(rows, r.value, name)
    ensures r.Some? ==> forall id :: Named(rows, id, name) ==> r.value <= id
    ensures r.None? <==> forall id :: !Named(rows, id, name)
  {
    FirstNamedIsLowest(rows, name);
    FirstIn(Ascending(rows.Keys), rows, name)
  }

  /** Scanning the ids in ascending order finds the lowest holder of the name, if any. */
  lemma FirstNamedIsLowest(rows: Rows, name: Value)
    ensures var r := FirstIn(Ascending(rows.Keys), rows, name);
      && (r.Some? ==> Named(rows, r.value, name))
      && (r.Some? ==> forall id :: Named(rows, id, name) ==> r.value <= id)
      && (r.None? <==> forall id :: !Named(rows, id, name))
  {
    var ids := Ascending(rows.Keys);
    FirstInFinds(ids, rows, name);
    var r := FirstIn(ids, rows, name);
    if r.Some? {
      var k :| 0 <= k < |ids| && ids[k] == r.value && Named(rows, ids[k], name)
        && forall j :: 0 <= j < k ==> !Named(rows, ids[j], name);
      LowestHolderFound(rows, name, ids, k);
    }
  }

  /** The first holder in an ascending scan has the lowest id among the holders. */
  lemma LowestHolderFound(rows: Rows, name: Value, ids: seq<int>, k: int)
    requires ids == Ascending(rows.Keys)
    requires 0 <= k < |ids| && forall j :: 0 <= j < k ==> !Named(rows, ids[j], name)
    ensures forall id :: Named(rows, id, name) ==> ids[k] <= id
  {
    forall id | Named(rows, id, name) ensures ids[k] <= id {
      assert id in ids;
      var j :| 0 <= j < |ids| && ids[j] == id;
      if j > k {
        AscendingIncreases(rows.Keys);
        assert ids[k] < ids[j];
      }
    }
  }

  /** Whether the name the data carry belongs to another server than `instance`. */
  predicate Taken(data: Data, instance: Option<int>, rows: Rows) {
    Name in data && FirstNamed(rows, data[Name]).Some? && Some(FirstNamed(rows, data[Name]).value) != instance
  }

  /**
   * validate_schema, with the two defects corrected: the default port is written only when a
   * server is created, and data without a name (a partial update that leaves the name alone,
   * or a name that failed its own validation) skip the uniqueness rule. The three cases of the
   * rule come down to one: the name is taken by a server other than the one being updated.
   */
  function ValidateSchema(data: Data, partial: bool, instance: Option<int>, rows: Rows): (Data, Option<string>) {
    var data := if !partial && Port !in data then data[Port := VInt(DefaultPort)] else data;
    if Taken(data, instance, rows) then (data, Some(DuplicateMessage)) else (data, None)
  }

  /** The result of `schema.load`: data for create_or_update, or the errors. */
  datatype LoadResult = Accepted(data: Data) | Rejected(errors: Errors)

  /** `schema.load(body, partial)` with `context={'instance': ...}` when updating. */
  function Load(body: Json, partial: bool, instance: Option<int>, rows: Rows): LoadResult {
    var (loaded, errors) := Unmarshal(body, partial);
    match loaded
    case None => Rejected(errors)
    case Some(data) =>
      var (data, duplicate) := ValidateSchema(data, partial, instance, rows);
      var errors := if duplicate.Some? then AddError(errors, Key(Name), duplicate.value) else errors;
      if errors == [] then Accepted(data) else Rejected(errors)
  }

  /** A body is accepted exactly when no field fails and the name is not taken by another server. */
  lemma LoadAcceptsIff(entries: seq<(string, Json)>, partial: bool, instance: Option<int>, rows: Rows)
    ensures var data := LoadFields(entries, Loadable, partial).0;
      Load(JDict(entries), partial, instance, rows).Accepted?
      <==> ((forall f :: f in Loadable ==> !Fails(entries, f, partial))
        && !Taken(ValidateSchema(data, partial, instance, rows).0, instance, rows))
  {
    LoadFieldsErrors(entries, Loadable, partial);
  }

  lemma AllLoadable(f: Field)
    ensures f in Loadable
  {
    assert Loadable[0] == Name && Loadable[1] == Description && Loadable[2] == Host;
    assert Loadable[3] == Port && Loadable[4] == Password;
  }

  /** No field of the body fails. */
  predicate Clean(entries: seq<(string, Json)>, partial: bool) {
    forall f :: !Fails(entries, f, partial)
  }

  /** A field that does not fail is loaded exactly when it is given. */
  lemma FieldThatPasses(f: Field, raw: Option<Json>, partial: bool)
    requires !LoadField(f, raw, partial).Invalid?
    ensures LoadField(f, raw, partial).Loaded? <==> raw.Some?
    ensures raw.None? ==> !(Required(f) && !partial)
    ensures f != Port && raw.Some? ==> raw.value.JStr? && LoadField(f, raw, partial).value == VStr(raw.value.s)
    ensures f == Port && raw.Some? ==>
      ToInteger(raw.value).Some? && LoadField(f, raw, partial).value == VInt(ToInteger(raw.value).value)
  {
  }

  /**
   * The data of a body with no failing field: every given field, admissible and as given (the
   * port as an integer), and on create the name and the host at least.
   */
  lemma CleanData(entries: seq<(string, Json)>, partial: bool)
    requires Clean(entries, partial)
    ensures var data := LoadFields(entries, Loadable, partial).0;
      && (forall f :: f in data <==> Lookup(entries, Key(f)).Some?)
      && (forall f :: f in data ==> Admissible(f, data[f]))
      && (forall f :: f in data && f != Port ==> Lookup(entries, Key(f)) == Some(ValueJson(Some(data[f]))))
      && (Port in data ==> data[Port].VInt? && ToInteger(Lookup(entries, Key(Port)).value) == Some(data[Port].i))
      && (!partial ==> Name in data && Host in data)
  {
    LoadFieldsData(entries, Loadable, partial);
    var data := LoadFields(entries, Loadable, partial).0;
    forall f ensures (f in data <==> Lookup(entries, Key(f)).Some?)
      && (f in data && f != Port ==> Lookup(entries, Key(f)) == Some(ValueJson(Some(data[f]))))
      && (f == Port && f in data ==> data[Port].VInt? && ToInteger(Lookup(entries, Key(Port)).value) == Some(data[Port].i))
      && (Required(f) && !partial ==> f in data)
    {
      AllLoadable(f);
      assert !Fails(entries, f, partial);
      FieldThatPasses(f, Lookup(entries, Key(f)), partial);
    }
  }

  /** The schema rule only adds the default port, which is admissible. */
  lemma ValidateKeepsAdmissible(loaded: Data, partial: bool, instance: Option<int>, rows: Rows)
    requires forall f :: f in loaded ==> Admissible(f, loaded[f])
    ensures var data := ValidateSchema(loaded, partial, instance, rows).0;
      forall f :: f in data ==> Admissible(f, data[f])
  {
    var data := ValidateSchema(loaded, partial, instance, rows).0;
    if !partial && Port !in loaded {
      assert Admissible(Port, VInt(DefaultPort));
      assert data == loaded[Port := VInt(DefaultPort)];
      forall f | f in data ensures Admissible(f, data[f]) {
        if f != Port {
          assert data[f] == loaded[f];
        }
      }
    } else {
      assert data == loaded;
    }
  }

  /** In partial mode the schema rule leaves the loaded data as they are: no default port is added. */
  lemma PartialKeepsData(loaded: Data, instance: Option<int>, rows: Rows)
    ensures ValidateSchema(loaded, true, instance, rows).0 == loaded
  {
  }

  /** Accepting a body is loading it cleanly and passing the schema rule. */
  lemma AcceptedIsClean(entries: seq<(string, Json)>, partial: bool, instance: Option<int>, rows: Rows)
    requires Load(JDict(entries), partial, instance, rows).Accepted?
    ensures Clean(entries, partial)
    ensures var loaded := LoadFields(entries, Loadable, partial).0;
      Load(JDict(entries), partial, instance, rows).data == ValidateSchema(loaded, partial, instance, rows).0
  {
    LoadAcceptsIff(entries, partial, instance, rows);
    forall f ensures !Fails(entries, f, partial) {
      AllLoadable(f);
    }
  }

  /** Every value of accepted data is admissible for its field. */
  lemma AcceptedAdmissible(entries: seq<(string, Json)>, partial: bool, instance: Option<int>, rows: Rows)
    requires Load(JDict(entries), partial, instance, rows).Accepted?
    ensures var data := Load(JDict(entries), partial, instance, rows).data;
      forall f :: f in data ==> Admissible(f, data[f])
  {
    AcceptedIsClean(entries, partial, instance, rows);
    CleanData(entries, partial);
    ValidateKeepsAdmissible(LoadFields(entries, Loadable, partial).0, partial, instance, rows);
  }

  /** Accepted data carry every given field other than the port as given, and no other. */
  lemma AcceptedFields(entries: seq<(string, Json)>, partial: bool, instance: Option<int>, rows: Rows)
    requires Load(JDict(entries), partial, instance, rows).Accepted?
    ensures var data := Load(JDict(entries), partial, instance, rows).data;
      && (forall f :: f != Port ==> (f in data <==> Lookup(entries, Key(f)).Some?))
      && (forall f :: f in data && f != Port ==> Lookup(entries, Key(f)) == Some(ValueJson(Some(data[f]))))
      && (!partial ==> Name in data && Host in data)
  {
    AcceptedIsClean(entries, partial, instance, rows);
    CleanData(entries, partial);
    var loaded := LoadFields(entries, Loadable, partial).0;
    var data := ValidateSchema(loaded, partial, instance, rows).0;
    assert forall f :: f != Port ==> (f in data <==> f in loaded) && (f in data ==> data[f] == loaded[f]);
  }

  /** A create without a port gets 6379; an update without one leaves it out; a given port is its integer value. */
  lemma AcceptedPort(entries: seq<(string, Json)>, partial: bool, instance: Option<int>, rows: Rows)
    requires Load(JDict(entries), partial, instance, rows).Accepted?
    ensures var data := Load(JDict(entries), partial, instance, rows).data;
      && (Port in data <==> !partial || Lookup(entries, Key(Port)).Some?)
      && (Lookup(entries, Key(Port)).None? && !partial ==> data[Port] == VInt(DefaultPort))
      && (Lookup(entries, Key(Port)).Some? ==>
            data[Port].VInt? && ToInteger(Lookup(entries, Key(Port)).value) == Some(data[Port].i))
  {
    AcceptedIsClean(entries, partial, instance, rows);
    CleanData(entries, partial);
  }

  /** Accepted data never carry a name another server holds. */
  lemma AcceptedNameFree(entries: seq<(string, Json)>, partial: bool, instance: Option<int>, rows: Rows)
    requires Load(JDict(entries), partial, instance, rows).Accepted?
    ensures !Taken(Load(JDict(entries), partial, instance, rows).data, instance, rows)
  {
    AcceptedIsClean(entries, partial, instance, rows);
    LoadAcceptsIff(entries, partial, instance, rows);
  }

  /** A given name that passes its own validation is in the loaded data. */
  lemma ValidNameLoads(entries: seq<(string, Json)>, partial: bool, name: string)
    requires Lookup(entries, Key(Name)) == Some(JStr(name)) && ValidName(name)
    ensures !Fails(entries, Name, partial)
    ensures var data := LoadFields(entries, Loadable, partial).0;
      Name in data && data[Name] == VStr(name)
  {
    LoadFieldsData(entries, Loadable, partial);
    AllLoadable(Name);
    assert Admissible(Name, VStr(name));
  }

  /**
   * A valid name held by a server other than the one being updated (on create: by any
   * server) is rejected, and the name error is the last one reported, so it is the message the
   * client sees.
   */
  lemma DuplicateNameRejected(entries: seq<(string, Json)>, partial: bool, instance: Option<int>, rows: Rows, name: string, id: int)
    requires Lookup(entries, Key(Name)) == Some(JStr(name)) && ValidName(name)
    requires Named(rows, id, VStr(name))
    requires forall other :: Named(rows, other, VStr(name)) ==> Some(other) != instance
    ensures Load(JDict(entries), partial, instance, rows).Rejected?
    ensures var errors := Load(JDict(entries), partial, instance, rows).errors;
      errors != [] && errors[|errors| - 1] == (Key(Name), [DuplicateMessage])
  {
    ValidNameLoads(entries, partial, name);
    var (loaded, fieldErrors) := LoadFields(entries, Loadable, partial);
    var data := ValidateSchema(loaded, partial, instance, rows).0;
    assert Name in data && data[Name] == VStr(name);
    assert Taken(data, instance, rows);
    NameNotReported(entries, Loadable, partial);
    AddErrorNewKey(fieldErrors, Key(Name), DuplicateMessage);
  }

  /** A name that loaded is never among the field errors. */
  lemma {:induction false} NameNotReported(entries: seq<(string, Json)>, fields: seq<Field>, partial: bool)
    requires !Fails(entries, Name, partial)
    ensures forall k :: 0 <= k < |LoadFields(entries, fields, partial).1| ==> LoadFields(entries, fields, partial).1[k].0 != Key(Name)
    decreases |fields|
  {
    if fields != [] {
      NameNotReported(entries, fields[..|fields| - 1], partial);
    }
  }

  /** AddError under a new key appends the entry. */
  lemma {:induction false} AddErrorNewKey(errors: Errors, key: string, message: string)
    requires forall k :: 0 <= k < |errors| ==> errors[k].0 != key
    ensures AddError(errors, key, message) == errors + [(key, [message])]
  {
    if errors != [] {
      AddErrorNewKey(errors[1..], key, message);
      assert errors == [errors[0]] + errors[1..];
    }
  }

  /** Every reported key carries at least one message. */
  predicate Reported(errors: Errors) {
    forall k :: 0 <= k < |errors| ==> errors[k].1 != []
  }

  lemma {:induction false} AddErrorReported(errors: Errors, key: string, message: string)
    requires Reported(errors)
    ensures Reported(AddError(errors, key, message))
  {
    if errors != [] && errors[0].0 != key {
      AddErrorReported(errors[1..], key, message);
      var r := AddError(errors[1..], key, message);
      assert forall k :: 1 <= k < |[errors[0]] + r| ==> ([errors[0]] + r)[k] == r[k - 1];
    }
  }

  lemma {:induction false} LoadFieldsReported(entries: seq<(string, Json)>, fields: seq<Field>, partial: bool)
    ensures Reported(LoadFields(entries, fields, partial).1)
    decreases |fields|
  {
    if fields != [] {
      LoadFieldsReported(entries, fields[..|fields| - 1], partial);
    }
  }

  /** A rejection always names at least one key, and every key it names has a message. */
  lemma RejectionsAreReported(body: Json, partial: bool, instance: Option<int>, rows: Rows)
    requires Load(body, partial, instance, rows).Rejected?
    ensures var errors := Load(body, partial, instance, rows).errors;
      errors != [] && Reported(errors)
  {
    if body.JDict? {
      var errors := LoadFields(body.entries, Loadable, partial).1;
      LoadFieldsReported(body.entries, Loadable, partial);
      AddErrorReported(errors, Key(Name), DuplicateMessage);
    }
  }

  /** On update, the name the instance itself holds passes the rule. */
  lemma OwnNamePasses(data: Data, id: int, rows: Rows)
    requires Name in data && Named(rows, id, data[Name])
    requires forall other :: Named(rows, other, data[Name]) ==> other == id
    ensures !Taken(data, Some(id), rows)
  {
  }

  // ---------------------------------------------------------------------------------------
  // The schema rule as written
  // ---------------------------------------------------------------------------------------

  /**
   * validate_schema as written: the default port is written in partial mode too, `data['name']`
   * raises KeyError when the name is not in the data, and a body that is not an object reaches
   * the rule as None, on which `'port' not in data` fails.
   */
  function ValidateSchemaAsWritten(data: Option<Data>, instance: Option<int>, rows: Rows): Result<(Data, Option<string>), Fault> {
    match data
    case None => Failure(NotIterable)
    case Some(data) =>
      var data := if Port !in data then data[Port := VInt(DefaultPort)] else data;
      if Name !in data then Failure(KeyMissing(Key(Name)))
      else if Taken(data, instance, rows) then Success((data, Some(DuplicateMessage)))
      else Success((data, None))
  }

  function LoadAsWritten(body: Json, partial: bool, instance: Option<int>, rows: Rows): Result<LoadResult, Fault> {
    var (loaded, errors) := Unmarshal(body, partial);
    match ValidateSchemaAsWritten(loaded, instance, rows)
    case Failure(f) => Failure(f)
    case Success((data, duplicate)) =>
      var errors := if duplicate.Some? then AddError(errors, Key(Name), duplicate.value) else errors;
      Success(if errors == [] then Accepted(data) else Rejected(errors))
  }

  /** A body in which no field fails loads without errors. */
  lemma CleanLoadsWithoutErrors(entries: seq<(string, Json)>, partial: bool)
    requires Clean(entries, partial)
    ensures LoadFields(entries, Loadable, partial).1 == []
  {
    LoadFieldsErrors(entries, Loadable, partial);
    forall f | f in Loadable ensures !Fails(entries, f, partial) { }
  }

  /** A server's own name, with or without the default port beside it, is not taken by another server. */
  lemma OwnNameFree(data: Data, rows: Rows, id: int, name: string)
    requires Name in data && data[Name] == VStr(name) && Named(rows, id, VStr(name))
    requires forall other :: Named(rows, other, VStr(name)) ==> other == id
    ensures !Taken(data, Some(id), rows) && !Taken(data[Port := VInt(DefaultPort)], Some(id), rows)
  {
    assert FirstNamed(rows, VStr(name)) == Some(id);
  }

  /** What the loading of a clean partial update that keeps its own name and gives no port yields. */
  lemma OwnNameUpdateLoads(entries: seq<(string, Json)>, rows: Rows, id: int, name: string)
    requires Clean(entries, true) && Lookup(entries, Key(Port)).None?
    requires Lookup(entries, Key(Name)) == Some(JStr(name)) && Named(rows, id, VStr(name))
    requires forall other :: Named(rows, other, VStr(name)) ==> other == id
    ensures var (loaded, errors) := LoadFields(entries, Loadable, true);
      && errors == [] && Port !in loaded && Name in loaded
      && !Taken(loaded, Some(id), rows) && !Taken(loaded[Port := VInt(DefaultPort)], Some(id), rows)
  {
    CleanData(entries, true);
    CleanLoadsWithoutErrors(entries, true);
    var loaded := LoadFields(entries, Loadable, true).0;
    assert Name in loaded && loaded[Name] == VStr(name);
    OwnNameFree(loaded, rows, id, name);
  }

  /**
   * As written, an update that gives its own name and no port loads the port as 6379, so the
   * save resets it; corrected, the port stays out of the data and the stored one is kept.
   */
  lemma PortResetOnPartialUpdate(entries: seq<(string, Json)>, rows: Rows, id: int, name: string)
    requires Clean(entries, true) && Lookup(entries, Key(Port)).None?
    requires Lookup(entries, Key(Name)) == Some(JStr(name)) && Named(rows, id, VStr(name))
    requires forall other :: Named(rows, other, VStr(name)) ==> other == id
    ensures LoadAsWritten(JDict(entries), true, Some(id), rows).Success?
    ensures var r := LoadAsWritten(JDict(entries), true, Some(id), rows).value;
      r.Accepted? && Port in r.data && r.data[Port] == VInt(DefaultPort)
    ensures var r := Load(JDict(entries), true, Some(id), rows);
      r.Accepted? && Port !in r.data
  {
    OwnNameUpdateLoads(entries, rows, id, name);
    PartialKeepsData(LoadFields(entries, Loadable, true).0, Some(id), rows);
  }

  /**
   * As written, a partial update without a name ends in KeyError; corrected, it is loaded like
   * any other body, with no uniqueness rule to pass.
   */
  lemma UpdateWithoutNameRaises(entries: seq<(string, Json)>, rows: Rows, id: int)
    requires Lookup(entries, Key(Name)).None?
    ensures LoadAsWritten(JDict(entries), true, Some(id), rows) == Failure(KeyMissing(Key(Name)))
    ensures var (loaded, errors) := LoadFields(entries, Loadable, true);
      Load(JDict(entries), true, Some(id), rows) == if errors == [] then Accepted(loaded) else Rejected(errors)
  {
    LoadFieldsData(entries, Loadable, true);
    var loaded := LoadFields(entries, Loadable, true).0;
    assert Name !in loaded;
  }

  /**
   * As written, a create whose name fails its own validation ends in KeyError; corrected, the
   * client gets the field errors.
   */
  lemma InvalidNameOnCreateRaises(entries: seq<(string, Json)>, rows: Rows)
    requires Fails(entries, Name, false)
    ensures LoadAsWritten(JDict(entries), false, None, rows) == Failure(KeyMissing(Key(Name)))
    ensures Load(JDict(entries), false, None, rows) == Rejected(LoadFields(entries, Loadable, false).1)
  {
    LoadFieldsData(entries, Loadable, false);
    LoadFieldsErrors(entries, Loadable, false);
    AllLoadable(Name);
    var loaded := LoadFields(entries, Loadable, false).0;
    assert Name !in loaded;
  }

  /** As written, a body that is not a JSON object ends in TypeError inside the rule; corrected, it is the schema error. */
  lemma NonObjectBodyRaises(body: Json, partial: bool, instance: Option<int>, rows: Rows)
    requires !body.JDict?
    ensures LoadAsWritten(body, partial, instance, rows) == Failure(NotIterable)
    ensures Load(body, partial, instance, rows) == Rejected([("_schema", [InvalidInputMessage])])
  {
  }

  /** Where the name is given and the body is an object, the two agree except for the port default in partial mode. */
  lemma AsWrittenAgreesOnCreate(entries: seq<(string, Json)>, rows: Rows)
    requires Name in LoadFields(entries, Loadable, false).0
    ensures LoadAsWritten(JDict(entries), false, None, rows) == Success(Load(JDict(entries), false, None, rows))
  {
  }

  // ---------------------------------------------------------------------------------------
  // Error and dump documents
  // ---------------------------------------------------------------------------------------

  function MessagesJson(messages: seq<string>): (r: seq<Json>)
    ensures |r| == |messages| && forall k :: 0 <= k < |r| ==> r[k] == JStr(messages[k])
  {
    if messages == [] then [] else [JStr(messages[0])] + MessagesJson(messages[1..])
  }

  /** The errors dict as the handler returns it. */
  function ErrorsJson(errors: Errors): (r: seq<(string, Json)>)
    ensures |r| == |errors|
    ensures forall k :: 0 <= k < |r| ==> r[k] == (errors[k].0, JList(MessagesJson(errors[k].1)))
  {
    if errors == [] then [] else [(errors[0].0, JList(MessagesJson(errors[0].1)))] + ErrorsJson(errors[1..])
  }

  function ValueJson(v: Option<Value>): Json {
    match v
    case None => JNull
    case Some(VStr(s)) => JStr(s)
    case Some(VInt(i)) => JInt(i)
  }

  function Column(row: Data, f: Field): Option<Value> {
    if f in row then Some(row[f]) else None
  }

  /** ServerSchema().dump(server): the id and every loadable column, NULL as null. */
  function Dump(id: int, row: Data): Json {
    JDict([("id", JInt(id)),
           ("name", ValueJson(Column(row, Name))),
           ("description", ValueJson(Column(row, Description))),
           ("host", ValueJson(Column(row, Host))),
           ("port", ValueJson(Column(row, Port))),
           ("password", ValueJson(Column(row, Password)))])
  }

  /** The dump shows the id and each column under its field's name, null for NULL. */
  lemma DumpShowsColumns(id: int, row: Data, f: Field)
    ensures Dump(id, row).JDict?
    ensures Lookup(Dump(id, row).entries, "id") == Some(JInt(id))
    ensures Lookup(Dump(id, row).entries, Key(f)) == Some(ValueJson(Column(row, f)))
  {
    var e := Dump(id, row).entries;
    var k := Key(f);
    assert k != "id";
    LookupCons(e, k);
    LookupCons(e[1..], k);
    LookupCons(e[2..], k);
    LookupCons(e[3..], k);
    LookupCons(e[4..], k);
    assert e[1..][1..] == e[2..] && e[2..][1..] == e[3..] && e[3..][1..] == e[4..] && e[4..][1..] == e[5..];
  }

  // ---------------------------------------------------------------------------------------
  // The server object
  // ---------------------------------------------------------------------------------------

  /** `setattr` of every loaded key: the loaded fields take the new values, the others keep theirs. */
  function Apply(columns: Data, data: Data): (r: Data)
    ensures forall f :: f in r <==> f in columns || f in data
    ensures forall f :: f in data ==> r[f] == data[f]
    ensures forall f :: f in columns && f !in data ==> r[f] == columns[f]
  {
    columns + data
  }

  /** A Server row object: its id once saved, and its column values. */
  class Server {
    var id: Option<int>
    var columns: Data

    /** `Server(**data)` */
    constructor (data: Data)
      ensures id == None && columns == data
    {
      id := None;
      columns := data;
    }

    /** `setattr(server, key, value)` */
    method SetAttr(f: Field, v: Value)
      modifies this
      ensures columns == old(columns)[f := v] && id == old(id)
    {
      columns := columns[f := v];
    }

    /** Server.ping */
    method Ping(reachable: bool) returns (r: Result<bool, RestException>)
      ensures r == Probe(Column(columns, Host), reachable)
    {
      if !reachable {
        return Failure(RestException(400, "cannot connect to redis server " + Render(Column(columns, Host))));
      }
      return Success(true);
    }

    /** Server.get_metrics, with the server's answer to INFO as `info` (None when unreachable). */
    method GetMetrics(info: Option<Json>) returns (r: Result<Json, RestException>)
      ensures r == Metrics(Column(columns, Host), info)
    {
      if info.None? {
        return Failure(RestException(400, "cannot connect to redis server " + Render(Column(columns, Host))));
      }
      return Success(info.value);
    }
  }

  /** `'{}'.format(value)` of a column value. */
  function Render(v: Option<Value>): string {
    match v
    case None => "None"
    case Some(VStr(s)) => s
    case Some(VInt(i)) => IntToString(i)
  }

  /** The connection error both probes raise. */
  function CannotConnect(host: Option<Value>): RestException {
    RestException(400, "cannot connect to redis server " + Render(host))
  }

  /** The outcome of a ping, `reachable` standing for the Redis server's answer. */
  function Probe(host: Option<Value>, reachable: bool): (r: Result<bool, RestException>)
    ensures r.Success? <==> reachable
    ensures r.Success? ==> r.value
    ensures !reachable ==> r.error.code == 400 && r.error.message == "cannot connect to redis server " + Render(host)
  {
    if reachable then Success(true) else Failure(CannotConnect(host))
  }

  function Metrics(host: Option<Value>, info: Option<Json>): (r: Result<Json, RestException>)
    ensures r.Success? <==> info.Some?
    ensures r.Success? ==> r.value == info.value
    ensures info.None? ==> r.error.code == 400 && r.error.message == "cannot connect to redis server " + Render(host)
  {
    if info.Some? then Success(info.value) else Failure(CannotConnect(host))
  }

  lemma NonEmptyHasField(keys: set<Field>)
    requires keys != {}
    ensures exists k :: k in keys
  {
    if forall k :: k !in keys {
      assert false;
    }
  }

  /**
   * create_or_update: without an instance a new server holding exactly the loaded keys;
   * otherwise each loaded key is set on the instance, which is returned.
   */
  method CreateOrUpdate(data: Data, instance: Server?) returns (server: Server)
    modifies instance
    ensures instance == null ==> fresh(server) && server.columns == data && server.id == None
    ensures instance != null ==> server == instance && server.id == old(instance.id)
    ensures instance != null ==> server.columns == Apply(old(instance.columns), data)
  {
    if instance == null {
      server := new Server(data);
      return;
    }
    var pending := data.Keys;
    while pending != {}
      invariant pending <= data.Keys
      invariant instance.id == old(instance.id)
      invariant instance.columns == old(instance.columns) + map f | f in data.Keys - pending :: data[f]
      decreases pending
    {
      NonEmptyHasField(pending);
      var key :| key in pending;
      instance.SetAttr(key, data[key]);
      pending := pending - {key};
    }
    assert data.Keys - pending == data.Keys;
    assert (map f | f in data.Keys :: data[f]) == data;
    server := instance;
  }
}
