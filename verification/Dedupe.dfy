/**
 Stage-1 dedupe (tradingagents/sensing/dedupe.py): a Redis hint in front of the
 durable SQLite fingerprint table. Stage 2, the embedding search, is an oracle in
 TriagePipeline.
 */
module Dedupe {
  import opened Outcomes

  type EventId = nat

  datatype Kind = ExternalId | Sha256

  datatype Key = Key(fingerprint: string, kind: Kind)

  type Fingerprints = map<Key, EventId>

  /** `sha` is the hash of the normalized text; an empty `externalId` means there is none. */
  datatype Envelope = Envelope(source: string, externalId: string, sha: string, rawPath: string)

  /** Redis membership of today's two fingerprint sets: any content at all, however stale. */
  datatype Hints = Hints(ext: set<string>, sha: set<string>)

  function Lookup(table: Fingerprints, fingerprint: string, kind: Kind): Option<EventId> {
    if Key(fingerprint, kind) in table then Some(table[Key(fingerprint, kind)]) else None
  }

  /** What SQLite alone would answer: the external id first, then the text hash. */
  function DurableAnswer(table: Fingerprints, env: Envelope): Option<EventId> {
    if env.externalId != "" && Lookup(table, env.externalId, ExternalId).Some?
    then Lookup(table, env.externalId, ExternalId)
    else Lookup(table, env.sha, Sha256)
  }

  function HotAnswer(table: Fingerprints, hints: Hints, env: Envelope): Option<EventId> {
    if env.externalId != "" && env.externalId in hints.ext && Lookup(table, env.externalId, ExternalId).Some?
    then Lookup(table, env.externalId, ExternalId)
    else if env.sha in hints.sha then Lookup(table, env.sha, Sha256)
    else None
  }

  function CheckAnswer(table: Fingerprints, hints: Hints, env: Envelope): Option<EventId> {
    if HotAnswer(table, hints, env).Some? then HotAnswer(table, hints, env) else DurableAnswer(table, env)
  }

  /** INSERT OR IGNORE: the first owner of a fingerprint keeps it. */
  function InsertIgnore(table: Fingerprints, key: Key, id: EventId): Fingerprints {
    if key in table then table else table[key := id]
  }

  function Recorded(table: Fingerprints, env: Envelope, id: EventId): Fingerprints {
    var withExt := if env.externalId != "" then InsertIgnore(table, Key(env.externalId, ExternalId), id) else table;
    InsertIgnore(withExt, Key(env.sha, Sha256), id)
  }

  class DedupeStage1 {
    var table: Fingerprints
    var hints: Hints

    constructor ()
      ensures table == map[] && hints == Hints({}, {})
    {
      table, hints := map[], Hints({}, {});
    }

    method Check(env: Envelope) returns (original: Option<EventId>)
      ensures original == CheckAnswer(table, hints, env)
      ensures original.Some? <==> Stored(table, env)
      ensures original.Some? ==> original in StoredOriginals(table, env)
      ensures env.externalId != "" && env.externalId in hints.ext && Key(env.externalId, ExternalId) in table ==>
                original == Some(table[Key(env.externalId, ExternalId)])
      ensures original != DurableAnswer(table, env) <==> HintMisleads(table, hints, env)
    {
      if env.externalId != "" {
        if env.externalId in hints.ext {
          var row := Lookup(table, env.externalId, ExternalId);
          if row.Some? {
            return row;
          }
        }
      }
      if env.sha in hints.sha {
        var row := Lookup(table, env.sha, Sha256);
        if row.Some? {
          return row;
        }
      }
      if env.externalId != "" {
        var row := Lookup(table, env.externalId, ExternalId);
        if row.Some? {
          return row;
        }
      }
      return Lookup(table, env.sha, Sha256);
    }

    method Record(env: Envelope, id: EventId)
      modifies this
      ensures table == Recorded(old(table), env, id)
      ensures Stored(table, env) && OnlyAdds(old(table), table, env, id)
      ensures hints.sha == old(hints).sha + {env.sha}
      ensures hints.ext == if env.externalId != "" then old(hints).ext + {env.externalId} else old(hints).ext
    {
      if env.externalId != "" {
        table := InsertIgnore(table, Key(env.externalId, ExternalId), id);
        hints := hints.(ext := hints.ext + {env.externalId});
      }
      table := InsertIgnore(table, Key(env.sha, Sha256), id);
      hints := hints.(sha := hints.sha + {env.sha});
    }
  }

  // ----- what a check means, for every content of Redis -----

  ghost predicate Stored(table: Fingerprints, env: Envelope) {
    (env.externalId != "" && Key(env.externalId, ExternalId) in table) || Key(env.sha, Sha256) in table
  }

  /** The owners of the envelope's keys. */
  function StoredOriginals(table: Fingerprints, env: Envelope): set<Option<EventId>> {
    (if env.externalId != "" then {Lookup(table, env.externalId, ExternalId)} else {})
    + {Lookup(table, env.sha, Sha256)}
  }

  /**
   Exactly when the hint changes the answer: both keys are stored with different
   owners, and Redis knows the text hash but not the external id.
   */
  ghost predicate HintMisleads(table: Fingerprints, hints: Hints, env: Envelope) {
    && env.externalId != ""
    && Key(env.externalId, ExternalId) in table && Key(env.sha, Sha256) in table
    && table[Key(env.externalId, ExternalId)] != table[Key(env.sha, Sha256)]
    && env.externalId !in hints.ext && env.sha in hints.sha
  }

  /** Every earlier owner keeps its fingerprint; the new ones, if any, are the envelope's own, for `id`. */
  ghost predicate OnlyAdds(before: Fingerprints, after: Fingerprints, env: Envelope, id: EventId) {
    && (forall key | key in before :: key in after && after[key] == before[key])
    && (forall key | key in after && key !in before ::
          after[key] == id && (key == Key(env.sha, Sha256) || (env.externalId != "" && key == Key(env.externalId, ExternalId))))
  }
}
