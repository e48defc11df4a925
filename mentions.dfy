/** The `users` option of the sync command: a space-separated list of user
    mentions (`<@123>`, `<@!123>`) or bare identifiers, turned into the users
    found in the client's user cache. */
module Mentions {
  import opened Discord

  /** The characters the mention-stripping pattern `[<@!>]` deletes. */
  const Sigils: set<char> := {'<', '@', '!', '>'}

  /** String splitting on one separator character, as the platform's
      `split` with a one-character separator does: every separator
      ends a piece, so adjacent separators give empty pieces, and the empty
      string gives one empty piece. */
  function Split(s: string, sep: char): (parts: seq<string>)
    ensures |parts| >= 1
    ensures forall k :: 0 <= k < |parts| ==> sep !in parts[k]
    decreases |s|
  {
    if s == [] then [[]]
    else if s[0] == sep then [[]] + Split(s[1..], sep)
    else
      var rest := Split(s[1..], sep);
      [[s[0]] + rest[0]] + rest[1..]
  }

  /** The inverse of `Split`: the pieces glued back with the separator. */
  function Join(parts: seq<string>, sep: char): string
    requires |parts| >= 1
  {
    if |parts| == 1 then parts[0] else parts[0] + [sep] + Join(parts[1..], sep)
  }

  lemma {:induction false} JoinSplit(s: string, sep: char)
    ensures Join(Split(s, sep), sep) == s
    decreases |s|
  {
    if s != [] {
      JoinSplit(s[1..], sep);
      if s[0] != sep {
        var rest := Split(s[1..], sep);
        if |rest| > 1 {
          assert rest == [rest[0]] + rest[1..];
          assert Join(rest, sep) == rest[0] + [sep] + Join(rest[1..], sep);
        }
      }
    }
  }

  lemma {:induction false} SplitJoin(parts: seq<string>, sep: char)
    requires |parts| >= 1
    requires forall k :: 0 <= k < |parts| ==> sep !in parts[k]
    ensures Split(Join(parts, sep), sep) == parts
    decreases |parts|, |parts[0]|
  {
    var p := parts[0];
    if p == [] {
      if |parts| > 1 {
        SplitJoin(parts[1..], sep);
        assert Join(parts, sep) == [sep] + Join(parts[1..], sep);
      }
    } else {
      var tail := [p[1..]] + parts[1..];
      assert tail[1..] == parts[1..];
      SplitJoin(tail, sep);
      assert Join(parts, sep) == [p[0]] + Join(tail, sep) by {
        if |parts| > 1 {
          assert Join(tail, sep) == p[1..] + [sep] + Join(parts[1..], sep);
        }
      }
      var joined := Join(parts, sep);
      assert p[0] != sep;
      assert joined[0] == p[0] && joined[1..] == Join(tail, sep);
      assert [p[0]] + p[1..] == p;
      assert parts == [p] + parts[1..];
    }
  }

  /** A mention token with every sigil character deleted. */
  function Strip(token: string): (id: string)
    ensures forall c :: c in id ==> c in token && c !in Sigils
    ensures |id| <= |token|
  {
    if token == [] then []
    else (if token[0] in Sigils then [] else [token[0]]) + Strip(token[1..])
  }

  /** Stripping works character by character, so it distributes over concatenation. */
  lemma {:induction false} StripAppend(a: string, b: string)
    ensures Strip(a + b) == Strip(a) + Strip(b)
  {
    if a != [] {
      assert (a + b)[0] == a[0] && (a + b)[1..] == a[1..] + b;
      StripAppend(a[1..], b);
    } else {
      assert a + b == b;
    }
  }

  /** A token with no sigils is an identifier already, and is kept as it is. */
  lemma {:induction false} StripKeepsPlain(token: string)
    requires forall k :: 0 <= k < |token| ==> token[k] !in Sigils
    ensures Strip(token) == token
  {
    if token != [] {
      StripKeepsPlain(token[1..]);
    }
  }

  /** Every character other than a sigil survives stripping, as often as it occurs. */
  lemma {:induction false} StripCounts(token: string, c: char)
    ensures multiset(Strip(token))[c] == if c in Sigils then 0 else multiset(token)[c]
  {
    if token != [] {
      StripCounts(token[1..], c);
      assert token == [token[0]] + token[1..];
    }
  }

  /** The identifiers named by the option's value: split on single spaces,
      then strip each piece. An absent value names no one. */
  function MentionIds(value: Option<string>): (ids: seq<Id>)
    ensures value.Some? ==> |ids| == |Split(value.value, ' ')|
    ensures value.Some? ==> forall k :: 0 <= k < |ids| ==> ids[k] == Strip(Split(value.value, ' ')[k])
    ensures value.None? ==> ids == []
  {
    match value
    case None => []
    case Some(v) => StripAll(Split(v, ' '))
  }

  function StripAll(tokens: seq<string>): (ids: seq<Id>)
    ensures |ids| == |tokens|
    ensures forall k :: 0 <= k < |tokens| ==> ids[k] == Strip(tokens[k])
  {
    if tokens == [] then [] else [Strip(tokens[0])] + StripAll(tokens[1..])
  }

  /** The identifiers found in the user cache, in input order, duplicates kept. */
  function Resolve(ids: seq<Id>, cache: set<Id>): (users: seq<Id>)
    ensures forall k :: 0 <= k < |users| ==> users[k] in cache
    ensures |users| <= |ids|
  {
    if ids == [] then []
    else (if ids[0] in cache then [ids[0]] else []) + Resolve(ids[1..], cache)
  }

  /** Resolution keeps order: resolving a concatenation is resolving each part. */
  lemma {:induction false} ResolveAppend(a: seq<Id>, b: seq<Id>, cache: set<Id>)
    ensures Resolve(a + b, cache) == Resolve(a, cache) + Resolve(b, cache)
  {
    if a != [] {
      assert (a + b)[0] == a[0] && (a + b)[1..] == a[1..] + b;
      ResolveAppend(a[1..], b, cache);
    } else {
      assert a + b == b;
    }
  }

  /** Each identifier is kept exactly as many times as it occurs when it is
      cached, and dropped otherwise: no deduplication. */
  lemma {:induction false} ResolveCounts(ids: seq<Id>, cache: set<Id>, x: Id)
    ensures multiset(Resolve(ids, cache))[x] == if x in cache then multiset(ids)[x] else 0
  {
    if ids != [] {
      ResolveCounts(ids[1..], cache, x);
      assert ids == [ids[0]] + ids[1..];
    }
  }

  /** Nobody resolves exactly when no identifier is in the cache. */
  lemma {:induction false} ResolveEmpty(ids: seq<Id>, cache: set<Id>)
    ensures Resolve(ids, cache) == [] <==> forall k :: 0 <= k < |ids| ==> ids[k] !in cache
  {
    if ids != [] {
      ResolveEmpty(ids[1..], cache);
      assert forall k :: 1 <= k < |ids| ==> ids[k] == ids[1..][k - 1];
    }
  }

  /** Everybody resolves, in order, exactly when every identifier is cached. */
  lemma {:induction false} ResolveAll(ids: seq<Id>, cache: set<Id>)
    ensures Resolve(ids, cache) == ids <==> forall k :: 0 <= k < |ids| ==> ids[k] in cache
  {
    if ids != [] {
      ResolveAll(ids[1..], cache);
      assert forall k :: 1 <= k < |ids| ==> ids[k] == ids[1..][k - 1];
      if ids[0] !in cache {
        assert |Resolve(ids, cache)| < |ids|;
      }
    }
  }

  /** The users a sync command addresses. */
  function ResolveUsers(value: Option<string>, cache: set<Id>): (users: seq<Id>)
    ensures forall k :: 0 <= k < |users| ==> users[k] in cache
  {
    Resolve(MentionIds(value), cache)
  }
}
