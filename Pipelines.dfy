/**
 * `PostgresPipeline`: every scraped record is written to the
 * `disboard_servers` table with `INSERT ... ON CONFLICT (guild_id) DO UPDATE`.
 * The table is a map from `guild_id` to the stored row.
 */
module Pipelines {
  import opened Items

  /** Rows are keyed by their own guild id. */
  ghost predicate KeyedByGuildId(table: map<string, ServerItem>) {
    forall g :: g in table ==> table[g].guildId == g
  }

  /**
   * The upsert: a new guild id gets the whole record; a stored one takes the
   * new scrape time, name, description, tags and category, and keeps its
   * platform link, which the UPDATE SET list leaves out.
   */
  function Upsert(table: map<string, ServerItem>, item: ServerItem): (t: map<string, ServerItem>)
    ensures t.Keys == table.Keys + {item.guildId}
    ensures item.guildId !in table ==> t[item.guildId] == item
    ensures item.guildId in table ==>
      t[item.guildId] == item.(platformLink := table[item.guildId].platformLink,
                               guildId := table[item.guildId].guildId)
    ensures forall g :: g in table && g != item.guildId ==> t[g] == table[g]
  {
    var g := item.guildId;
    if g in table then
      table[g := table[g].(scrapeTime := item.scrapeTime, serverName := item.serverName,
                           serverDescription := item.serverDescription, tags := item.tags,
                           category := item.category)]
    else table[g := item]
  }

  /** The upsert keeps the table keyed by guild id. */
  lemma UpsertKeyed(table: map<string, ServerItem>, item: ServerItem)
    requires KeyedByGuildId(table)
    ensures KeyedByGuildId(Upsert(table, item))
  {
  }

  /** Writing the same record twice leaves the table as writing it once. */
  lemma UpsertIdempotent(table: map<string, ServerItem>, item: ServerItem)
    ensures Upsert(Upsert(table, item), item) == Upsert(table, item)
  {
    var once := Upsert(table, item);
    var twice := Upsert(once, item);
    assert twice.Keys == once.Keys;
    forall g | g in once ensures twice[g] == once[g] {
      if g == item.guildId && g !in table {
        assert once[g] == item;
      }
    }
  }

  /**
   * Re-scraping a guild: after two records with the same guild id, one row
   * holds the latest mutable fields and the platform link first stored.
   */
  lemma UpsertLatestWins(table: map<string, ServerItem>, first: ServerItem, second: ServerItem)
    requires first.guildId == second.guildId
    requires first.guildId !in table
    ensures var t := Upsert(Upsert(table, first), second);
      && t.Keys == table.Keys + {first.guildId}
      && t[first.guildId] == second.(platformLink := first.platformLink)
  {
  }

  /** The pipeline object; its table stands for the database it writes to. */
  class PostgresPipeline {
    const dbUrl: string
    var table: map<string, ServerItem>

    ghost predicate Valid()
      reads this
    {
      KeyedByGuildId(table)
    }

    /** `PostgresPipeline(db_url)`, connected to a database whose table holds `rows`. */
    constructor (dbUrl: string, rows: map<string, ServerItem>)
      requires KeyedByGuildId(rows)
      ensures Valid()
      ensures this.dbUrl == dbUrl && table == rows
    {
      this.dbUrl := dbUrl;
      table := rows;
    }

    /** `process_item`: upserts the record and passes it on unchanged. */
    method ProcessItem(item: ServerItem) returns (r: ServerItem)
      requires Valid()
      modifies this
      ensures Valid()
      ensures r == item
      ensures table == Upsert(old(table), item)
      ensures item.guildId in table && table[item.guildId].guildId == item.guildId
      ensures forall g :: g in old(table) && g != item.guildId ==> table[g] == old(table)[g]
    {
      UpsertKeyed(table, item);
      table := Upsert(table, item);
      r := item;
    }
  }
}
