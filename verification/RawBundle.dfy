/**
 How many bytes the Raw snapshots of a poll take when they are stored
 (src/aruba_session_tracker/raw_bundle.py:43-105).
 */
module RawBundle {
  import opened Wrappers
  import opened Digits
  import opened Outcomes

  /** The length in bytes of a text, and of a session key, as JSON prints them, with their quotes. */
  datatype Encoding = Encoding(quoted: string -> nat, key: Key -> nat)

  /** The time stamp of a snapshot and the hexadecimal digest of its output have a fixed length. */
  const TIME_BYTES: nat := 24
  const DIGEST_BYTES: nat := 64

  /** `raw_bundle_prefix`. */
  function PrefixBytes(count: nat): nat {
    |"ARUBA_SESSION_TRACKER_RAW_BUNDLE_V1\n"| + |"{\"snapshot_count\":"| + |Decimal(count)| + |"}\n"|
  }

  /** The items of a JSON list, with the commas between them. */
  function KeyBytes(e: Encoding, keys: seq<Key>): nat {
    if keys == [] then 0
    else if |keys| == 1 then e.key(keys[0])
    else e.key(keys[0]) + 1 + KeyBytes(e, keys[1..])
  }

  function KeysIn(r: Raw): seq<Key> {
    if r.keys.Some? then r.keys.value else []
  }

  function MetadataBytes(e: Encoding, r: Raw, index: nat): nat {
    |"{\"command\":"| + e.quoted(r.command) + |",\"device_name\":"| + e.quoted(r.device)
    + |",\"index\":"| + |Decimal(index)| + |",\"observation_keys\":["| + KeyBytes(e, KeysIn(r))
    + |"],\"observed_at\":\""| + TIME_BYTES + |"\",\"output_sha256\":\""| + DIGEST_BYTES
    + |"\",\"output_utf8_bytes\":"| + |Decimal(r.output)| + |"}\n"|
  }

  /** `raw_bundle_section_parts`. */
  function SectionBytes(e: Encoding, r: Raw, index: nat): nat {
    |"--- BEGIN SNAPSHOT "| + |Decimal(index)| + |" ---\n"| + MetadataBytes(e, r, index) + r.output
    + |"\n--- END SNAPSHOT "| + |Decimal(index)| + |" ---\n"|
  }

  function SectionsBytes(e: Encoding, raw: seq<Raw>): nat {
    if raw == [] then 0
    else SectionsBytes(e, raw[..|raw| - 1]) + SectionBytes(e, raw[|raw| - 1], |raw|)
  }

  /** `persisted_raw_size`: a single output is stored as it is, several are bundled. */
  function PersistedSize(e: Encoding, raw: seq<Raw>): nat {
    if raw == [] then 0
    else if |raw| == 1 then raw[0].output
    else PrefixBytes(|raw|) + SectionsBytes(e, raw)
  }

  // ----- more snapshots and more keys take more room -----

  lemma {:induction false} DecimalGrows(m: nat, n: nat)
    requires m <= n
    ensures |Decimal(m)| <= |Decimal(n)|
  {
    if m >= 10 {
      DecimalGrows(m / 10, n / 10);
    }
  }

  lemma SectionsSnoc(e: Encoding, raw: seq<Raw>, r: Raw)
    ensures SectionsBytes(e, raw + [r]) == SectionsBytes(e, raw) + SectionBytes(e, r, |raw| + 1)
  {
    assert (raw + [r])[..|raw|] == raw;
  }

  /** One more snapshot takes at least the bytes of its output more. */
  lemma SizeGrows(e: Encoding, raw: seq<Raw>, r: Raw)
    ensures PersistedSize(e, raw + [r]) >= PersistedSize(e, raw) + r.output
    ensures raw != [] ==> PersistedSize(e, raw + [r]) > PersistedSize(e, raw) + r.output
  {
    SectionsSnoc(e, raw, r);
    DecimalGrows(|raw|, |raw| + 1);
    if |raw| == 1 {
      assert raw == [] + [raw[0]];
      SectionsSnoc(e, [], raw[0]);
    }
  }

  /** A snapshot takes more room once it owns keys. */
  lemma KeysGrow(e: Encoding, raw: seq<Raw>, r: Raw, keys: seq<Key>)
    ensures PersistedSize(e, raw + [r.(keys := Some([]))]) <= PersistedSize(e, raw + [r.(keys := Some(keys))])
  {
    SectionsSnoc(e, raw, r.(keys := Some([])));
    SectionsSnoc(e, raw, r.(keys := Some(keys)));
  }
}
