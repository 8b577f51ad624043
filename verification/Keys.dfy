/**
 The strings that identify work: outbox and action dedupe keys, queue job ids and refresh tokens.
 The other modules use structured keys; the lemmas here show that the strings tell the same
 things apart, and for which ids.
 */
module Keys {
  import opened Domain

  predicate NoColon(s: string) {
    ':' !in s
  }

  /** The first separator ends the first part. */
  lemma SplitsAt(a: string, x: string, b: string, y: string, separator: char)
    requires separator !in a && separator !in b
    requires a + [separator] + x == b + [separator] + y
    ensures a == b && x == y
  {
    var s := a + [separator] + x;
    assert s[|a|] == separator && s[|b|] == separator;
    assert forall i | 0 <= i < |a| :: s[i] == a[i];
    assert forall i | 0 <= i < |b| :: s[i] == b[i];
    assert |a| == |b|;
    assert a == s[..|a|] == b;
    assert x == s[|a| + 1..] == y;
  }

  // ----- why an action is enqueued -----

  datatype Cause = Policy | Approval | Retry(request: string) | Reprocess(deadLetter: string)

  function Family(c: Cause): string {
    match c
    case Policy => "signal-policy"
    case Approval => "approval-approved"
    case Retry(_) => "manual-retry:"
    case Reprocess(_) => "dead-letter-reprocess:"
  }

  function Suffix(c: Cause): string {
    match c
    case Policy => ""
    case Approval => ""
    case Retry(request) => request
    case Reprocess(deadLetter) => deadLetter
  }

  /** The reason in the payload and in the dedupe key. */
  function Text(c: Cause): string {
    Family(c) + Suffix(c)
  }

  predicate SameFamily(c: Cause, d: Cause) {
    || (c.Policy? && d.Policy?) || (c.Approval? && d.Approval?)
    || (c.Retry? && d.Retry?) || (c.Reprocess? && d.Reprocess?)
  }

  function DedupeKey(action: string, c: Cause): string {
    "action.execute:" + action + ":" + Text(c)
  }

  /** The four strings, as the code writes them. */
  lemma KeysAsWritten(action: string, id: string)
    ensures DedupeKey(action, Policy) == "action.execute:" + action + ":signal-policy"
    ensures DedupeKey(action, Approval) == "action.execute:" + action + ":approval-approved"
    ensures DedupeKey(action, Retry(id)) == "action.execute:" + action + ":manual-retry:" + id
    ensures DedupeKey(action, Reprocess(id)) == "action.execute:" + action + ":dead-letter-reprocess:" + id
  {
    var prefix := "action.execute:" + action;
    Glue(prefix, ":", "signal-policy", "");
    Glue(prefix, ":", "approval-approved", "");
    Glue(prefix, ":", "manual-retry:", id);
    Glue(prefix, ":", "dead-letter-reprocess:", id);
    assert ":" + "signal-policy" == ":signal-policy" && ":" + "approval-approved" == ":approval-approved";
    assert ":" + "manual-retry:" == ":manual-retry:";
    assert ":" + "dead-letter-reprocess:" == ":dead-letter-reprocess:";
  }

  lemma Glue(p: string, a: string, b: string, c: string)
    ensures p + a + (b + c) == p + (a + b) + c
  {
  }

  /** The families start with different letters. */
  lemma FamilyStarts(c: Cause)
    ensures Family(c) != ""
    ensures Family(c)[0]
         == match c case Policy => 's' case Approval => 'a' case Retry(_) => 'm' case Reprocess(_) => 'd'
  {
  }

  lemma PrefixCancels(p: string, x: string, y: string)
    requires p + x == p + y
    ensures x == y
  {
    assert x == (p + x)[|p|..] == (p + y)[|p|..] == y;
  }

  lemma TextsDiffer(c: Cause, d: Cause)
    requires Text(c) == Text(d)
    ensures c == d
  {
    FamilyStarts(c);
    FamilyStarts(d);
    assert Text(c)[0] == Family(c)[0] && Text(d)[0] == Family(d)[0];
    assert SameFamily(c, d);
    PrefixCancels(Family(c), Suffix(c), Suffix(d));
  }

  lemma FramedSplits(prefix: string, a: string, x: string, b: string, y: string, separator: char)
    requires separator !in a && separator !in b
    ensures prefix + a + [separator] + x == prefix + b + [separator] + y <==> a == b && x == y
  {
    if prefix + a + [separator] + x == prefix + b + [separator] + y {
      assert prefix + a + [separator] + x == prefix + (a + [separator] + x);
      assert prefix + b + [separator] + y == prefix + (b + [separator] + y);
      PrefixCancels(prefix, a + [separator] + x, b + [separator] + y);
      SplitsAt(a, x, b, y, separator);
    }
  }

  /** Outbox rows for actions share a dedupe key exactly when they name the same action and reason. */
  lemma DedupeKeysIdentifyWork(a: string, c: Cause, b: string, d: Cause)
    requires NoColon(a) && NoColon(b)
    ensures DedupeKey(a, c) == DedupeKey(b, d) <==> a == b && c == d
  {
    hide Text;
    FramedSplits("action.execute:", a, Text(c), b, Text(d), ':');
    if Text(c) == Text(d) { TextsDiffer(c, d); }
  }

  // ----- job ids -----

  predicate Alphanumeric(c: char) {
    'A' <= c <= 'Z' || 'a' <= c <= 'z' || '0' <= c <= '9'
  }

  predicate Safe(c: char) {
    Alphanumeric(c) || c == '_' || c == '-'
  }

  /** Every character outside the safe ones becomes an underscore. */
  function Sanitize(s: string): string {
    seq(|s|, i requires 0 <= i < |s| => if Safe(s[i]) then s[i] else '_')
  }

  function JobId(action: string, c: Cause): string {
    "action-" + action + "-" + Sanitize(Text(c))
  }

  predicate IsId(s: string) {
    forall i | 0 <= i < |s| :: Alphanumeric(s[i])
  }

  predicate AllSafe(s: string) {
    forall i | 0 <= i < |s| :: Safe(s[i])
  }

  lemma SanitizeSplits(s: string, t: string)
    ensures Sanitize(s + t) == Sanitize(s) + Sanitize(t)
  {
    assert forall i | 0 <= i < |s| :: (s + t)[i] == s[i];
    assert forall i | 0 <= i < |t| :: (s + t)[|s| + i] == t[i];
  }

  lemma SanitizeKeepsSafe(s: string)
    ensures Sanitize(s) == s <==> AllSafe(s)
  {
    if Sanitize(s) == s {
      forall i | 0 <= i < |s| ensures Safe(s[i]) {
        assert Sanitize(s)[i] == s[i];
      }
    }
  }

  lemma SanitizedTextsDiffer(c: Cause, d: Cause)
    requires Sanitize(Text(c)) == Sanitize(Text(d))
    ensures SameFamily(c, d) && Sanitize(Suffix(c)) == Sanitize(Suffix(d))
  {
    FamilyStarts(c);
    FamilyStarts(d);
    SanitizeSplits(Family(c), Suffix(c));
    SanitizeSplits(Family(d), Suffix(d));
    assert Sanitize(Text(c))[0] == Family(c)[0] && Sanitize(Text(d))[0] == Family(d)[0];
    assert SameFamily(c, d);
    PrefixCancels(Sanitize(Family(c)), Sanitize(Suffix(c)), Sanitize(Suffix(d)));
  }

  /**
   For alphanumeric action ids, two events get the same job id exactly when they name the same
   action and the same kind of reason, with suffixes that the replacement makes equal.
   */
  lemma JobIdsCollideExactly(a: string, c: Cause, b: string, d: Cause)
    requires IsId(a) && IsId(b)
    ensures JobId(a, c) == JobId(b, d) <==>
              a == b && SameFamily(c, d) && Sanitize(Suffix(c)) == Sanitize(Suffix(d))
  {
    hide Family, Suffix, Sanitize;
    FramedSplits("action-", a, Sanitize(Text(c)), b, Sanitize(Text(d)), '-');
    if Sanitize(Text(c)) == Sanitize(Text(d)) {
      SanitizedTextsDiffer(c, d);
    } else if SameFamily(c, d) {
      SameFamilySameText(c, d);
      SanitizeSplits(Family(c), Suffix(c));
      SanitizeSplits(Family(d), Suffix(d));
    }
  }

  /** The characters that are never replaced. */
  predicate QueueSafe(id: string) {
    forall i | 0 <= i < |id| ::
      'A' <= id[i] <= 'Z' || 'a' <= id[i] <= 'z' || '0' <= id[i] <= '9' || id[i] in {'_', '-'}
  }

  /**
   A job id holds nothing but letters, digits, `_` and `-`, keeps the length of its parts, and differs from the
   reason's own text only where that holds something else, and there by an underscore.
   */
  lemma JobIdsAreQueueSafe(action: string, c: Cause)
    requires IsId(action)
    ensures QueueSafe(JobId(action, c))
    ensures exists tail :: JobId(action, c) == "action-" + action + "-" + tail && |tail| == |Text(c)|
              && forall i | 0 <= i < |tail| :: tail[i] == Text(c)[i] || (tail[i] == '_' && !QueueSafe([Text(c)[i]]))
  {
    hide Text;
    var tail := Sanitize(Text(c));
    assert JobId(action, c) == "action-" + action + "-" + tail;
    forall i | 0 <= i < |tail| ensures tail[i] == Text(c)[i] || (tail[i] == '_' && !QueueSafe([Text(c)[i]])) {
      if !Safe(Text(c)[i]) { assert [Text(c)[i]][0] == Text(c)[i]; }
    }
  }

  lemma SameFamilySameText(c: Cause, d: Cause)
    requires SameFamily(c, d)
    ensures Family(c) == Family(d)
  {
  }

  /**
   With the suffixes the code creates, UUIDs and row ids, a job id identifies the action and the
   reason: a redispatch reuses its own id and never another's.
   */
  lemma JobIdsIdentifyWork(a: string, c: Cause, b: string, d: Cause)
    requires IsId(a) && IsId(b) && AllSafe(Suffix(c)) && AllSafe(Suffix(d))
    ensures JobId(a, c) == JobId(b, d) <==> a == b && c == d
  {
    JobIdsCollideExactly(a, c, b, d);
    SanitizeKeepsSafe(Suffix(c));
    SanitizeKeepsSafe(Suffix(d));
  }

  // ----- action dedupe keys -----

  function ActionKey(signal: string, rule: Option<string>, kind: string): string {
    signal + ":" + (if rule.Some? then rule.value else "fallback") + ":" + kind
  }

  /** One signal plans the same action twice exactly when the same rule, or the fallback, names the same type. */
  lemma ActionKeysIdentifyPlans(s: string, r: Option<string>, k: string, s': string, r': Option<string>, k': string)
    requires NoColon(s) && NoColon(s')
    requires r.Some? ==> NoColon(r.value) && r.value != "fallback"
    requires r'.Some? ==> NoColon(r'.value) && r'.value != "fallback"
    ensures ActionKey(s, r, k) == ActionKey(s', r', k') <==> s == s' && r == r' && k == k'
  {
    var q, q' := if r.Some? then r.value else "fallback", if r'.Some? then r'.value else "fallback";
    if ActionKey(s, r, k) == ActionKey(s', r', k') {
      assert s + ":" + (q + ":" + k) == ActionKey(s, r, k);
      assert s' + ":" + (q' + ":" + k') == ActionKey(s', r', k');
      SplitsAt(s, q + ":" + k, s', q' + ":" + k', ':');
      SplitsAt(q, k, q', k', ':');
    }
  }

  // ----- refresh tokens -----

  function TokenPair(session: string, raw: string): string {
    session + "." + raw
  }

  /** What comes before the first dot. */
  function Head(s: string): string {
    if s == "" || s[0] == '.' then "" else [s[0]] + Head(s[1..])
  }

  /** The first two of the parts between dots; a missing or empty one makes the token malformed. */
  function SplitToken(token: string): Option<(string, string)> {
    if '.' !in token then None
    else
      var session := Head(token);
      HeadEnds(token);
      var raw := Head(token[|session| + 1..]);
      if session == "" || raw == "" then None else Some((session, raw))
  }

  lemma {:induction false} HeadEnds(s: string)
    requires '.' in s
    ensures |Head(s)| < |s|
  {
    if s[0] != '.' { HeadEnds(s[1..]); }
  }

  lemma {:induction false} HeadStops(a: string, x: string)
    requires '.' !in a
    ensures Head(a + "." + x) == a && Head(a) == a
  {
    if a == "" {
      assert (a + "." + x)[0] == '.';
    } else {
      assert (a + "." + x)[1..] == a[1..] + "." + x;
      HeadStops(a[1..], x);
    }
  }

  lemma {:induction false} HeadHasNoDot(s: string)
    ensures '.' !in Head(s)
  {
    if s != "" && s[0] != '.' { HeadHasNoDot(s[1..]); }
  }

  /** A token splits back into its parts exactly when both are non-empty and free of dots. */
  lemma TokensRoundTrip(session: string, raw: string)
    ensures SplitToken(TokenPair(session, raw)) == Some((session, raw)) <==>
              session != "" && raw != "" && '.' !in session && '.' !in raw
  {
    var token := TokenPair(session, raw);
    assert token[|session|] == '.';
    HeadEnds(token);
    HeadHasNoDot(token);
    HeadHasNoDot(token[|Head(token)| + 1..]);
    if '.' !in session && '.' !in raw {
      HeadStops(session, raw);
      HeadStops(raw, "");
      assert token[|session| + 1..] == raw;
    }
  }
}
