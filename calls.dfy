/** What `request` and `fetch_status` share before a call goes out: the merge
    of caller-supplied `"Name: Value"` header strings into the fixed headers,
    and the per-call timeout and TLS overrides. */
module Calls {
  import opened Optional
  import opened Strings
  import opened Json
  import opened Config

  type Headers = map<string, string>

  /** One entry of the `headers` option. Only a string containing a colon
      counts: it is split at its first colon and both halves are trimmed. */
  function HeaderEntry(entry: Json): Option<(string, string)> {
    if !entry.JStr? then None
    else match SplitFirst(entry.s, ':')
      case None => None
      case Some(parts) => Some((Strip(parts.0), Strip(parts.1)))
  }

  /** Adds one entry to the headers; a later entry replaces an earlier one
      with the same name. */
  function AddHeader(headers: Headers, entry: Json): Headers {
    match HeaderEntry(entry)
    case None => headers
    case Some(nv) => headers[nv.0 := nv.1]
  }

  /** The headers after all entries, in order, have been merged. */
  function MergedHeaders(headers: Headers, entries: seq<Json>): Headers
    decreases |entries|
  {
    if entries == [] then headers else MergedHeaders(AddHeader(headers, entries[0]), entries[1..])
  }

  /** The value the last well-formed entry named `name` gives, if any. */
  function LastHeaderValue(entries: seq<Json>, name: string): Option<string>
    decreases |entries|
  {
    if entries == [] then None
    else
      var e := HeaderEntry(entries[|entries| - 1]);
      if e.Some? && e.value.0 == name then Some(e.value.1)
      else LastHeaderValue(entries[..|entries| - 1], name)
  }

  /** The header loop of `request` and `fetch_status`. */
  method MergeHeaders(headers: Headers, entries: seq<Json>) returns (merged: Headers)
    ensures merged == MergedHeaders(headers, entries)
  {
    merged := headers;
    for i := 0 to |entries|
      invariant MergedHeaders(merged, entries[i..]) == MergedHeaders(headers, entries)
    {
      assert entries[i..][1..] == entries[i + 1..];
      var entry := entries[i];
      if entry.JStr? && ':' in entry.s {
        var parts := SplitFirst(entry.s, ':').value;
        merged := merged[Strip(parts.0) := Strip(parts.1)];
      }
    }
  }

  lemma {:induction false} MergedHeadersSnoc(headers: Headers, entries: seq<Json>, last: Json)
    ensures MergedHeaders(headers, entries + [last]) == AddHeader(MergedHeaders(headers, entries), last)
    decreases |entries|
  {
    if entries == [] {
      assert ([] + [last])[1..] == [];
    } else {
      assert (entries + [last])[1..] == entries[1..] + [last];
      MergedHeadersSnoc(AddHeader(headers, entries[0]), entries[1..], last);
    }
  }

  /** What each header name ends up as: the last well-formed entry for that
      name wins over the fixed headers, and a name without such an entry
      keeps its fixed value (or stays absent). */
  lemma {:induction false} MergedHeadersLookup(headers: Headers, entries: seq<Json>, name: string)
    ensures var m := MergedHeaders(headers, entries);
      && (name in m <==> name in headers || LastHeaderValue(entries, name).Some?)
      && (LastHeaderValue(entries, name).Some? ==> m[name] == LastHeaderValue(entries, name).value)
      && (LastHeaderValue(entries, name).None? && name in headers ==> m[name] == headers[name])
    decreases |entries|
  {
    if entries != [] {
      var init := entries[..|entries| - 1];
      var last := entries[|entries| - 1];
      assert entries == init + [last];
      MergedHeadersSnoc(headers, init, last);
      MergedHeadersLookup(headers, init, name);
    }
  }

  /** Entries that are not strings with a colon are dropped without trace. */
  lemma {:induction false} MalformedHeaderIgnored(headers: Headers, before: seq<Json>, entry: Json, after: seq<Json>)
    requires !entry.JStr? || ':' !in entry.s
    ensures MergedHeaders(headers, before + [entry] + after) == MergedHeaders(headers, before + after)
    decreases |before|
  {
    if before == [] {
      assert ([entry] + after)[1..] == after;
      assert [] + [entry] + after == [entry] + after;
      assert [] + after == after;
    } else {
      assert (before + [entry] + after)[1..] == before[1..] + [entry] + after;
      assert (before + after)[1..] == before[1..] + after;
      assert (before + [entry] + after)[0] == before[0] == (before + after)[0];
      MalformedHeaderIgnored(AddHeader(headers, before[0]), before[1..], entry, after);
    }
  }

  /** The inverse of writing a header: `name + ": " + value` is read back as
      that name and value when neither has surrounding whitespace and the
      name has no colon; the value may contain colons. */
  lemma HeaderEntryRoundTrip(name: string, value: string)
    requires ':' !in name && Strip(name) == name && Strip(value) == value
    ensures HeaderEntry(JStr(name + ": " + value)) == Some((name, value))
  {
    var rest := [' '] + value;
    assert name + ": " + value == name + [':'] + rest;
    SplitFirstJoin(name, ':', rest);
    assert ' ' in Whitespace;
    StripCharsDropsLeading(' ', value, Whitespace);
  }

  /** The per-call options `request` and `fetch_status` read: the header
      strings (an absent option is the empty list), `timeout` (None when
      absent or None) and `verify_tls` (None when the key is absent; Some(v)
      when it is present, even with the value None). */
  datatype CallOptions = CallOptions(headers: seq<Json>, timeout: Option<int>, verifyTls: Option<Json>)

  /** `cfg["timeout"] if opt_timeout is None else opt_timeout`. */
  function EffectiveTimeout(cfg: Config, o: CallOptions): int {
    o.timeout.GetOr(cfg.timeout)
  }

  /** Whether certificates are verified: the truth value of the call's
      `verify_tls` option when the key is present, even when it holds None,
      and the configured setting only when the key is absent. */
  function EffectiveVerifyTls(cfg: Config, o: CallOptions): bool {
    match o.verifyTls
    case None => cfg.verifyTls
    case Some(given) => Truthy(given)
  }
}
