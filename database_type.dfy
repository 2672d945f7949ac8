/**
 * The SQL-dialect template set of one database type (DatabaseType.java).
 *
 * Loading the per-type properties file and migration.properties through the class loader is
 * abstracted into a map from type name to what the loader finds. The loaded key set is
 * validated against the thirteen required keys; lookups consult the override layer
 * (migration.properties, keyed "<type>.<key>") before the bundle.
 */
module DatabaseTypes {
  import opened Wrappers

  const SupportsMultipleStatementsKey := "supportsMultipleStatements"
  const CreatePatchTableStatementKey := "patches.create"
  const InsertPatchStatementKey := "level.create"
  const PatchCountStatementKey := "level.count"
  const PatchTableExistsStatementKey := "level.table.exists"
  const CurrentPatchLevelStatementKey := "level.read"
  const RollbackPatchStatementKey := "level.rollback"
  const UpdatePatchStatementKey := "level.update"
  const PatchExistsStatementKey := "level.exists"
  const GetAllPatchesStatementKey := "patches.all"
  const LockStatusStatementKey := "lock.read"
  const LockObtainStatementKey := "lock.obtain"
  const LockReleaseStatementKey := "lock.release"

  /** PARAMETER_CONSTANTS, in declaration order. */
  const ParameterConstants: seq<string> := [
    SupportsMultipleStatementsKey, CreatePatchTableStatementKey, InsertPatchStatementKey,
    PatchCountStatementKey, PatchTableExistsStatementKey, CurrentPatchLevelStatementKey,
    RollbackPatchStatementKey, UpdatePatchStatementKey, PatchExistsStatementKey,
    GetAllPatchesStatementKey, LockStatusStatementKey, LockObtainStatementKey,
    LockReleaseStatementKey
  ]

  /** The key set a properties bundle must have, no more and no fewer. */
  function RequiredKeys(): set<string> {
    set k | k in ParameterConstants
  }

  /** Directory of the per-type bundles: the package of DatabaseType, as a resource path. */
  const BundleDirectory := "com/tacitknowledge/util/migration/jdbc/"

  function BundleFile(typeName: string): string {
    BundleDirectory + typeName + ".properties"
  }

  /** What the class loader yields for a properties file that it finds. */
  datatype Resource = Unreadable | Loaded(entries: map<string, string>)

  /** The IllegalArgumentException cases raised while constructing a DatabaseType. */
  datatype ConfigError =
    | NotFound(file: string)
    | NotReadable(file: string)
    | AdditionalProperties(typeName: string, extra: set<string>)
    | PropertiesNotSet(typeName: string, missing: seq<string>, message: string)

  /** A loaded database type: its name, its bundle and the override layer. */
  datatype DatabaseType = DatabaseType(
    databaseType: string,
    databaseProperties: map<string, string>,
    migrationProperties: map<string, string>)
  {
    /** What validatePropertiesSet establishes at construction. */
    predicate Valid() {
      databaseProperties.Keys == RequiredKeys()
    }

    function GetDatabaseType(): string {
      databaseType
    }

    /** The name under which migration.properties overrides a key for this type. */
    function OverrideKey(propertyName: string): string {
      databaseType + "." + propertyName
    }

    /** getProperty: the override if present, else the bundle value, else null. */
    function GetProperty(propertyName: string): (r: Option<string>)
      ensures OverrideKey(propertyName) in migrationProperties ==>
                r == Some(migrationProperties[OverrideKey(propertyName)])
      ensures OverrideKey(propertyName) !in migrationProperties ==>
                (r.Some? <==> propertyName in databaseProperties)
      ensures OverrideKey(propertyName) !in migrationProperties && r.Some? ==>
                r.value == databaseProperties[propertyName]
    {
      var overrideKey := OverrideKey(propertyName);
      if overrideKey in migrationProperties then Some(migrationProperties[overrideKey])
      else if propertyName in databaseProperties then Some(databaseProperties[propertyName])
      else None
    }

    /** isMultipleStatementsSupported: Boolean.valueOf of the value, "false" when absent. */
    function IsMultipleStatementsSupported(): (r: bool)
      ensures r <==> GetProperty(SupportsMultipleStatementsKey).Some? &&
                     EqualsIgnoreCase(GetProperty(SupportsMultipleStatementsKey).value, "true")
    {
      var value := GetProperty(SupportsMultipleStatementsKey);
      var multiStatement := if value.Some? then value.value else "false";
      ParseBoolean(multiStatement)
    }
  }

  function LowerAscii(c: char): char {
    if 'A' <= c <= 'Z' then (c as int + 32) as char else c
  }

  /** String.equalsIgnoreCase, for the ASCII letters that matter when comparing with "true". */
  predicate EqualsIgnoreCase(a: string, b: string) {
    |a| == |b| && forall i :: 0 <= i < |a| ==> LowerAscii(a[i]) == LowerAscii(b[i])
  }

  /** Boolean.valueOf(String) for a non-null argument. */
  function ParseBoolean(s: string): bool {
    EqualsIgnoreCase(s, "true")
  }

  /** The constants that the loaded keys leave uncovered, in the order of `constants`. */
  function Missing(constants: seq<string>, loaded: set<string>): (r: seq<string>)
    ensures forall k :: k in r <==> k in constants && k !in loaded
  {
    if constants == [] then []
    else
      var last := constants[|constants| - 1];
      Missing(constants[..|constants| - 1], loaded) + (if last in loaded then [] else [last])
  }

  /** StringUtils.join(parts, sep). */
  function Join(parts: seq<string>, sep: string): string {
    if |parts| == 0 then ""
    else if |parts| == 1 then parts[0]
    else parts[0] + sep + Join(parts[1..], sep)
  }

  /** `k` occurs in `s` starting at index `i`. */
  predicate OccursAt(k: string, s: string, i: int) {
    0 <= i <= |s| - |k| && s[i..i + |k|] == k
  }

  /** `k` occurs as a contiguous piece of `s`. */
  ghost predicate Occurs(k: string, s: string) {
    exists i :: OccursAt(k, s, i)
  }

  lemma OccursInSuffix(prefix: string, s: string)
    ensures forall k :: Occurs(k, s) ==> Occurs(k, prefix + s)
  {
    forall k | Occurs(k, s) ensures Occurs(k, prefix + s) {
      var i :| OccursAt(k, s, i);
      assert (prefix + s)[|prefix| + i..|prefix| + i + |k|] == k;
      assert OccursAt(k, prefix + s, |prefix| + i);
    }
  }

  lemma {:induction false} JoinContainsParts(parts: seq<string>, sep: string)
    ensures forall k :: k in parts ==> Occurs(k, Join(parts, sep))
  {
    if |parts| == 1 {
      assert OccursAt(parts[0], Join(parts, sep), 0);
    } else if |parts| > 1 {
      var tail := Join(parts[1..], sep);
      assert Join(parts, sep) == parts[0] + (sep + tail);
      JoinContainsParts(parts[1..], sep);
      OccursInSuffix(parts[0] + sep, tail);
      assert (parts[0] + sep + tail)[0..|parts[0]|] == parts[0];
      assert OccursAt(parts[0], Join(parts, sep), 0);
      forall k | k in parts ensures Occurs(k, Join(parts, sep)) {
        if k != parts[0] {
          assert k in parts[1..];
        }
      }
    }
  }

  const NotSetPrefix := "Properties not set in property file "

  /**
   * The missing-keys message as DatabaseType.java:149-152 builds it: the format string has a
   * single %s, so String.format drops the joined list of missing keys.
   */
  function NotSetMessageAsWritten(typeName: string, missing: seq<string>): string {
    NotSetPrefix + typeName + ".properties: "
  }

  /** Two bundles missing different keys get the very same message. */
  lemma NotSetMessageAsWrittenIgnoresKeys(typeName: string)
    ensures NotSetMessageAsWritten(typeName, [LockStatusStatementKey])
         == NotSetMessageAsWritten(typeName, [CurrentPatchLevelStatementKey, UpdatePatchStatementKey])
    ensures forall m1, m2 :: NotSetMessageAsWritten(typeName, m1) == NotSetMessageAsWritten(typeName, m2)
  {
  }

  /** The missing-keys message with the joined key list appended, as the call evidently intends. */
  function NotSetMessage(typeName: string, missing: seq<string>): (m: string)
    ensures forall k :: k in missing ==> Occurs(k, m)
  {
    var prefix := NotSetMessageAsWritten(typeName, missing);
    var joined := Join(missing, " ");
    JoinContainsParts(missing, " ");
    OccursInSuffix(prefix, joined);
    prefix + joined
  }

  /** List.removeAll on a copy of the constants: those not among the loaded keys, in order. */
  method RemoveAll(constants: seq<string>, properties: set<string>) returns (remaining: seq<string>)
    ensures remaining == Missing(constants, properties)
  {
    remaining := [];
    var i := 0;
    while i < |constants|
      invariant 0 <= i <= |constants|
      invariant remaining == Missing(constants[..i], properties)
    {
      assert constants[..i + 1][..i] == constants[..i];
      if constants[i] !in properties {
        remaining := remaining + [constants[i]];
      }
      i := i + 1;
    }
    assert constants[..i] == constants;
  }

  /**
   * validatePropertiesSet over the key set of the loaded bundle. The extra-key check runs first;
   * `constants.removeAll(properties)` is the loop over the copied constant list. The missing keys
   * travel in the error value, but its message is the one the code builds, without them.
   */
  method ValidatePropertiesSet(typeName: string, loaded: set<string>) returns (r: Option<ConfigError>)
    ensures r.None? <==> loaded == RequiredKeys()
    ensures r.Some? ==> r.value.AdditionalProperties? || r.value.PropertiesNotSet?
    ensures r.Some? && r.value.AdditionalProperties? <==> !(loaded <= RequiredKeys())
    ensures r.Some? && r.value.AdditionalProperties? ==>
              r.value == AdditionalProperties(typeName, loaded - RequiredKeys())
    ensures r.Some? && r.value.PropertiesNotSet? ==>
              r.value.typeName == typeName &&
              r.value.missing == Missing(ParameterConstants, loaded) &&
              r.value.message == NotSetMessageAsWritten(typeName, r.value.missing) &&
              (forall k :: k in r.value.missing <==> k in RequiredKeys() && k !in loaded)
  {
    var constants := ParameterConstants;
    var properties := loaded;
    if !(properties <= RequiredKeys()) {
      properties := properties - RequiredKeys();
      return Some(AdditionalProperties(typeName, properties));
    }
    var remaining := RemoveAll(constants, properties);
    if remaining != [] {
      assert remaining[0] in RequiredKeys() && remaining[0] !in loaded;
      return Some(PropertiesNotSet(typeName, remaining, NotSetMessageAsWritten(typeName, remaining)));
    }
    assert forall k :: k in RequiredKeys() ==> k !in remaining;
    return None;
  }

  /**
   * The DatabaseType constructor: find and read the bundle (a failure is fatal), read
   * migration.properties (any failure leaves the override layer empty), then validate.
   */
  method Load(typeName: string, bundles: map<string, Resource>, migration: Option<Resource>)
    returns (r: Result<DatabaseType, ConfigError>)
    ensures typeName !in bundles ==> r == Err(NotFound(BundleFile(typeName)))
    ensures typeName in bundles && bundles[typeName].Unreadable? ==>
              r == Err(NotReadable(BundleFile(typeName)))
    ensures r.Ok? <==> typeName in bundles && bundles[typeName].Loaded? &&
                       bundles[typeName].entries.Keys == RequiredKeys()
    ensures r.Ok? ==> r.value.Valid() && r.value.GetDatabaseType() == typeName &&
                      r.value.databaseProperties == bundles[typeName].entries &&
                      r.value.migrationProperties ==
                        (if migration.Some? && migration.value.Loaded? then migration.value.entries else map[])
    ensures r.Err? && typeName in bundles && bundles[typeName].Loaded? ==>
              (r.error.AdditionalProperties? || r.error.PropertiesNotSet?)
  {
    if typeName !in bundles {
      return Err(NotFound(BundleFile(typeName)));
    }
    var bundle := bundles[typeName];
    if bundle.Unreadable? {
      return Err(NotReadable(BundleFile(typeName)));
    }
    var databaseProperties := bundle.entries;
    var migrationProperties: map<string, string> := map[];
    if migration.Some? && migration.value.Loaded? {
      migrationProperties := migration.value.entries;
    }
    var invalid := ValidatePropertiesSet(typeName, databaseProperties.Keys);
    if invalid.Some? {
      return Err(invalid.value);
    }
    return Ok(DatabaseType(typeName, databaseProperties, migrationProperties));
  }

  /** After validation every required key resolves to a template. */
  lemma RequiredKeysResolve(d: DatabaseType, key: string)
    requires d.Valid() && key in RequiredKeys()
    ensures d.GetProperty(key).Some?
  {
  }

  /** An override flips the bundle's multi-statement flag (the mysql case of the tests). */
  lemma OverrideFlipsMultipleStatements(d: DatabaseType)
    requires SupportsMultipleStatementsKey in d.databaseProperties
    requires d.databaseProperties[SupportsMultipleStatementsKey] == "true"
    requires d.migrationProperties == map[d.OverrideKey(SupportsMultipleStatementsKey) := "false"]
    ensures !d.IsMultipleStatementsSupported()
    ensures d.(migrationProperties := map[]).IsMultipleStatementsSupported()
  {
    assert LowerAscii('f') != LowerAscii('t');
  }

  /**
   * With the key absent from both layers the flag is false. A validated bundle always holds the
   * key (see ValidBundleHasMultipleStatementsKey), so for a DatabaseType that Load returns this
   * default is reached only through an unvalidated value.
   */
  lemma MultipleStatementsDefaultsToFalse(d: DatabaseType)
    requires d.OverrideKey(SupportsMultipleStatementsKey) !in d.migrationProperties
    requires SupportsMultipleStatementsKey !in d.databaseProperties
    ensures !d.IsMultipleStatementsSupported()
  {
  }

  /** Every validated bundle sets supportsMultipleStatements, so the "false" default is not used. */
  lemma ValidBundleHasMultipleStatementsKey(d: DatabaseType)
    requires d.Valid()
    ensures SupportsMultipleStatementsKey in d.databaseProperties
    ensures d.GetProperty(SupportsMultipleStatementsKey).Some?
  {
    assert SupportsMultipleStatementsKey == ParameterConstants[0];
  }
}
