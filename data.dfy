/**
 * The per-server configuration store: the SQLite table `roles`, keyed by guild,
 * with a nullable `role_id` and an `auto_scan` flag that defaults to true.
 *
 * The table is modelled as a map from guild to row. The pure functions below say
 * what each statement does to the table; the class `AppData` owns the table and
 * its methods are proved against those functions.
 */
module Data {
  import opened Ids

  /** One row of the table. Both columns are nullable INTEGER columns. */
  datatype Row = Row(roleId: Option<I64>, autoScan: Option<I64>)

  /** The result of executing one write statement. */
  datatype SqlResult = Ok | Err

  type Table = map<GuildId, Row>

  /** The row `INSERT ... VALUES(guild, NULL)` creates: no role, auto_scan at its default TRUE. */
  const FreshRow: Row := Row(None, Some(1))

  /** `INSERT OR IGNORE`: adds a fresh row only when the guild has none. */
  function Register(t: Table, g: GuildId): Table {
    if g in t then t else t[g := FreshRow]
  }

  /** `UPDATE ... SET role_id = r WHERE guild_id = g`: touches at most that guild's row. */
  function SetRole(t: Table, g: GuildId, r: RoleId): Table {
    if g in t then t[g := t[g].(roleId := Some(r))] else t
  }

  /** `UPDATE ... SET auto_scan = TRUE/FALSE WHERE guild_id = g`. */
  function SetAutoScan(t: Table, g: GuildId, on: bool): Table {
    if g in t then t[g := t[g].(autoScan := Some(if on then 1 else 0))] else t
  }

  /** What a successful read of `auto_scan` yields: a row whose value is readable and non-zero. */
  predicate AutoScanOn(t: Table, g: GuildId) {
    g in t && t[g].autoScan.Some? && t[g].autoScan.value != 0
  }

  /**
   * What a successful read of `role_id` yields: a role only for a row whose value
   * is non-NULL, converts to an unsigned integer and is not the sentinel zero.
   */
  function PrimaryRole(t: Table, g: GuildId): Option<RoleId> {
    if g in t && t[g].roleId.Some? && t[g].roleId.value > 0 then Some(t[g].roleId.value) else None
  }

  class AppData {
    var rows: Table

    /** Opens the database; `existing` is the table already stored at that location, if any. */
    constructor (existing: Table)
      ensures rows == existing
    {
      rows := existing;
    }

    /** Registers a guild; `fails` stands for a storage error, which leaves the table as it was. */
    method NewServer(g: GuildId, fails: bool) returns (r: SqlResult)
      modifies this
      ensures r == (if fails then Err else Ok)
      ensures rows == (if fails then old(rows) else Register(old(rows), g))
    {
      if fails {
        return Err;
      }
      if g !in rows {
        rows := rows[g := FreshRow];
      }
      return Ok;
    }

    method UpdateServerPrimaryRole(g: GuildId, role: RoleId, fails: bool) returns (r: SqlResult)
      modifies this
      ensures r == (if fails then Err else Ok)
      ensures rows == (if fails then old(rows) else SetRole(old(rows), g, role))
    {
      if fails {
        return Err;
      }
      if g in rows {
        rows := rows[g := rows[g].(roleId := Some(role))];
      }
      return Ok;
    }

    /**
     * Reads the flag. `readFails` stands for a statement that cannot be prepared
     * or stepped; every failure, and a missing row, reads as disabled.
     */
    method IsAutoScanEnabled(g: GuildId, readFails: bool) returns (enabled: bool)
      ensures enabled <==> !readFails && AutoScanOn(rows, g)
    {
      if readFails {
        return false;
      }
      if g in rows {
        var stored := rows[g].autoScan;
        return stored.Some? && stored.value != 0;
      }
      return false;
    }

    method DisableAutoScan(g: GuildId, fails: bool) returns (r: SqlResult)
      modifies this
      ensures r == (if fails then Err else Ok)
      ensures rows == (if fails then old(rows) else SetAutoScan(old(rows), g, false))
    {
      if fails {
        return Err;
      }
      if g in rows {
        rows := rows[g := rows[g].(autoScan := Some(0))];
      }
      return Ok;
    }

    method EnableAutoScan(g: GuildId, fails: bool) returns (r: SqlResult)
      modifies this
      ensures r == (if fails then Err else Ok)
      ensures rows == (if fails then old(rows) else SetAutoScan(old(rows), g, true))
    {
      if fails {
        return Err;
      }
      if g in rows {
        rows := rows[g := rows[g].(autoScan := Some(1))];
      }
      return Ok;
    }

    /**
     * Reads the primary role. A failed statement, a missing row, a NULL value, a
     * negative value (the conversion to unsigned fails) and zero all give None.
     */
    method GetPrimaryRole(g: GuildId, readFails: bool) returns (role: Option<RoleId>)
      ensures role == (if readFails then None else PrimaryRole(rows, g))
      ensures role.Some? ==> g in rows && rows[g].roleId == Some(role.value)
    {
      if readFails || g !in rows {
        return None;
      }
      var stored := rows[g].roleId;
      if stored.None? {
        return None;
      }
      if stored.value < 0 {
        return None;
      }
      var id := stored.value;
      if id == 0 {
        return None;
      }
      return Some(id);
    }
  }

  /** A guild seen for the first time has auto scan on and no primary role. */
  lemma RegisterUnseen(t: Table, g: GuildId)
    requires g !in t
    ensures g in Register(t, g) && Register(t, g)[g] == FreshRow
    ensures AutoScanOn(Register(t, g), g) && PrimaryRole(Register(t, g), g) == None
    ensures forall h :: h != g ==> (h in Register(t, g) <==> h in t)
  {
  }

  /** Registering an already registered guild changes nothing, so registering twice is registering once. */
  lemma RegisterIdempotent(t: Table, g: GuildId)
    ensures g in t ==> Register(t, g) == t
    ensures Register(Register(t, g), g) == Register(t, g)
  {
  }

  /** The updates never create a row: on an unregistered guild they leave the table and its reads alone. */
  lemma UpdatesCreateNoRow(t: Table, g: GuildId, r: RoleId, on: bool)
    requires g !in t
    ensures SetRole(t, g, r) == t && SetAutoScan(t, g, on) == t
    ensures !AutoScanOn(SetAutoScan(t, g, on), g) && PrimaryRole(SetRole(t, g, r), g) == None
  {
  }

  /** Setting the role changes only that guild's role column. */
  lemma SetRoleFrame(t: Table, g: GuildId, r: RoleId)
    ensures SetRole(t, g, r).Keys == t.Keys
    ensures forall h :: h in t && h != g ==> SetRole(t, g, r)[h] == t[h]
    ensures g in t ==> SetRole(t, g, r)[g].autoScan == t[g].autoScan
    ensures g in t ==> AutoScanOn(SetRole(t, g, r), g) == AutoScanOn(t, g)
  {
  }

  /** Enabling or disabling changes only that guild's auto_scan column. */
  lemma SetAutoScanFrame(t: Table, g: GuildId, on: bool)
    ensures SetAutoScan(t, g, on).Keys == t.Keys
    ensures forall h :: h in t && h != g ==> SetAutoScan(t, g, on)[h] == t[h]
    ensures g in t ==> SetAutoScan(t, g, on)[g].roleId == t[g].roleId
    ensures PrimaryRole(SetAutoScan(t, g, on), g) == PrimaryRole(t, g)
  {
  }

  /** On a registered guild the flag reads as the last enable or disable. */
  lemma AutoScanReflectsLast(t: Table, g: GuildId, on: bool)
    ensures AutoScanOn(SetAutoScan(t, g, on), g) <==> g in t && on
  {
  }

  /** Setting the same flag twice is setting it once. */
  lemma SetAutoScanIdempotent(t: Table, g: GuildId, on: bool)
    ensures SetAutoScan(SetAutoScan(t, g, on), g, on) == SetAutoScan(t, g, on)
  {
  }

  /** A read gives no role exactly for a missing row, a NULL value or a value below one. */
  lemma PrimaryRoleNone(t: Table, g: GuildId)
    ensures PrimaryRole(t, g) == None <==>
            g !in t || t[g].roleId.None? || t[g].roleId.value <= 0
  {
  }

  /** On a registered guild, the role just stored is the role read back. */
  lemma PrimaryRoleRoundTrip(t: Table, g: GuildId, r: RoleId)
    requires g in t
    ensures PrimaryRole(SetRole(t, g, r), g) == Some(r)
  {
  }

  /**
   * The unit test of the store: two guilds registered, the second disabled; the
   * first reads as enabled, the second as disabled and an unknown guild as disabled.
   */
  method AutoScanScenario() returns (first: bool, second: bool, unknown: bool)
    ensures first && !second && !unknown
  {
    var store := new AppData(map[]);
    var _ := store.NewServer(1, false);
    var _ := store.NewServer(2, false);
    var _ := store.DisableAutoScan(2, false);
    first := store.IsAutoScanEnabled(1, false);
    second := store.IsAutoScanEnabled(2, false);
    unknown := store.IsAutoScanEnabled(37, false);
  }
}
