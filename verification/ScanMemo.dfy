/**
 The memo in front of the terminal's line scanner
 (apps/desktop/src/terminal-link-provider.ts). What scanning finds is a parameter.
 */
module ScanMemo {
  predicate NoRepeats(keys: seq<string>) { forall i, j | 0 <= i < j < |keys| :: keys[i] != keys[j] }

  function Without(keys: seq<string>, key: string): (r: seq<string>) {
    if keys == [] then []
    else if keys[0] == key then Without(keys[1..], key)
    else [keys[0]] + Without(keys[1..], key)
  }

  function Trimmed(keys: seq<string>, max: nat): seq<string> { if |keys| > max then keys[1..] else keys }

  /** The keys kept, oldest first, after a request for `text`. */
  function Touched(keys: seq<string>, text: string, max: nat): seq<string> {
    Trimmed(Without(keys, text) + [text], max)
  }

  function KeysOf<M>(cache: seq<(string, M)>): (keys: seq<string>)
    ensures |keys| == |cache| && forall i | 0 <= i < |cache| :: keys[i] == cache[i].0
  {
    seq(|cache|, i requires 0 <= i < |cache| => cache[i].0)
  }

  lemma OneKey<M>(entry: (string, M))
    ensures KeysOf([entry]) == [entry.0]
  {}

  lemma KeysPart<M>(cache: seq<(string, M)>, from: nat, to: nat)
    requires from <= to <= |cache|
    ensures KeysOf(cache[from..to]) == KeysOf(cache)[from..to]
  {
    hide KeysOf;
    var part, keys := cache[from..to], KeysOf(cache)[from..to];
    forall i | 0 <= i < to - from ensures KeysOf(part)[i] == keys[i] {
      assert part[i] == cache[from + i];
    }
  }

  lemma KeysJoin<M>(a: seq<(string, M)>, b: seq<(string, M)>)
    ensures KeysOf(a + b) == KeysOf(a) + KeysOf(b)
  {
    hide KeysOf;
    forall i | 0 <= i < |a| + |b| ensures KeysOf(a + b)[i] == (KeysOf(a) + KeysOf(b))[i] {
      assert (a + b)[i] == if i < |a| then a[i] else b[i - |a|];
    }
  }

  lemma {:induction false} WithoutNone(keys: seq<string>, key: string)
    requires key !in keys
    ensures Without(keys, key) == keys
  {
    if keys != [] { WithoutNone(keys[1..], key); }
  }

  lemma {:induction false} WithoutAt(keys: seq<string>, i: nat)
    requires NoRepeats(keys) && i < |keys|
    ensures Without(keys, keys[i]) == keys[..i] + keys[i + 1..]
  {
    if i == 0 {
      WithoutNone(keys[1..], keys[0]);
    } else {
      WithoutAt(keys[1..], i - 1);
    }
  }

  /** A hit: the entry moves to the newest place. */
  lemma MovedKeys<M>(cache: seq<(string, M)>, at: nat)
    requires at < |cache| && NoRepeats(KeysOf(cache))
    ensures KeysOf(cache[..at] + cache[at + 1..] + [cache[at]]) == Without(KeysOf(cache), cache[at].0) + [cache[at].0]
    ensures |Without(KeysOf(cache), cache[at].0)| < |cache|
  {
    hide NoRepeats, Without;
    var before, after, last := cache[..at], cache[at + 1..], [cache[at]];
    WithoutAt(KeysOf(cache), at);
    OneKey(cache[at]);
    hide KeysOf;
    KeysPart(cache, 0, at);
    KeysPart(cache, at + 1, |cache|);
    KeysJoin(before, after);
    KeysJoin(before + after, last);
  }

  function IndexOf<M>(cache: seq<(string, M)>, text: string): (n: nat)
    ensures n <= |cache| && (n < |cache| ==> cache[n].0 == text)
    ensures forall i | 0 <= i < n :: cache[i].0 != text
  {
    if cache == [] || cache[0].0 == text then 0 else 1 + IndexOf(cache[1..], text)
  }

  /** A miss: the entry is added, and the oldest may go. */
  lemma AddedKeys<M>(cache: seq<(string, M)>, text: string, matches: M)
    requires IndexOf(cache, text) == |cache|
    ensures Without(KeysOf(cache), text) == KeysOf(cache)
    ensures KeysOf(cache + [(text, matches)]) == KeysOf(cache) + [text]
    ensures KeysOf((cache + [(text, matches)])[1..]) == (KeysOf(cache) + [text])[1..]
  {
    assert forall i | 0 <= i < |cache| :: KeysOf(cache)[i] != text;
    WithoutNone(KeysOf(cache), text);
  }

  lemma {:induction false} WithoutKeeps(keys: seq<string>, key: string)
    requires NoRepeats(keys)
    ensures NoRepeats(Without(keys, key)) && |Without(keys, key)| <= |keys|
    ensures forall k :: k in Without(keys, key) <==> k in keys && k != key
    ensures key in keys ==> |Without(keys, key)| < |keys|
  {
    if keys != [] {
      WithoutKeeps(keys[1..], key);
      var rest := Without(keys[1..], key);
      assert forall j | 0 <= j < |rest| :: rest[j] in rest && rest[j] in keys[1..];
    }
  }

  lemma TouchedFits(keys: seq<string>, text: string, max: nat)
    requires NoRepeats(keys) && |keys| <= max
    ensures NoRepeats(Touched(keys, text, max)) && |Touched(keys, text, max)| <= max
  {
    WithoutKeeps(keys, text);
  }

  class ScanMemo<Matches> {
    const scan: string -> Matches
    const max: nat
    var cache: seq<(string, Matches)>

    constructor (scan: string -> Matches, max: nat)
      ensures this.scan == scan && this.max == max && Valid() && Keys() == []
    {
      this.scan, this.max, cache := scan, max, [];
    }

    function Keys(): (keys: seq<string>)
      reads this
    {
      KeysOf(cache)
    }

    ghost predicate Valid()
      reads this
    {
      && NoRepeats(Keys()) && |cache| <= max
      && forall i | 0 <= i < |cache| :: cache[i].1 == scan(cache[i].0)
    }

    method Scan(text: string) returns (matches: Matches)
      requires Valid()
      modifies this
      ensures Valid() && matches == scan(text)
      ensures Keys() == Touched(old(Keys()), text, max)
    {
      TouchedFits(Keys(), text, max);
      var at := IndexOf(cache, text);
      if at < |cache| {
        matches := cache[at].1;
        MovedKeys(cache, at);
        cache := cache[..at] + cache[at + 1..] + [(text, matches)];
      } else {
        matches := scan(text);
        AddedKeys(cache, text, matches);
        cache := cache + [(text, matches)];
        if |cache| > max { cache := cache[1..]; }
      }
    }
  }

  // ---- What the memo holds after any history

  function AfterAll(history: seq<string>, max: nat): seq<string> {
    if history == [] then []
    else Touched(AfterAll(history[..|history| - 1], max), history[|history| - 1], max)
  }

  /** The requests that were not made again later, in order: the distinct texts, by
      their latest request. */
  function ByLatest(history: seq<string>): seq<string> {
    if history == [] then []
    else if history[0] in history[1..] then ByLatest(history[1..])
    else [history[0]] + ByLatest(history[1..])
  }

  function Newest(keys: seq<string>, max: nat): seq<string> {
    if |keys| > max then keys[|keys| - max..] else keys
  }

  lemma {:induction false} ByLatestHas(history: seq<string>)
    ensures NoRepeats(ByLatest(history))
    ensures forall k :: k in ByLatest(history) <==> k in history
  {
    if history != [] { ByLatestHas(history[1..]); }
  }

  lemma {:induction false} ByLatestOn(history: seq<string>, text: string)
    ensures ByLatest(history + [text]) == Without(ByLatest(history), text) + [text]
  {
    if history == [] {
      assert ([] + [text])[1..] == [];
    } else {
      var rest := history[1..];
      assert (history + [text])[1..] == rest + [text];
      ByLatestOn(rest, text);
      if history[0] == text && text !in rest {
        ByLatestHas(rest);
        WithoutNone(ByLatest(rest), text);
      }
    }
  }

  lemma NewestOfMore(keys: seq<string>, text: string, max: nat)
    ensures Newest(keys + [text], max) == Trimmed(Newest(keys, max) + [text], max)
  {}

  lemma NewestOfMoved(keys: seq<string>, text: string, max: nat, i: nat)
    requires i < |keys| && keys[i] == text
    ensures var from := if |keys| > max then |keys| - max else 0;
            Newest(keys[..i] + keys[i + 1..] + [text], max)
            == Trimmed((if from <= i then keys[from..i] + keys[i + 1..] else keys[from..]) + [text], max)
  {}

  lemma KeptAt(keys: seq<string>, from: nat, i: nat)
    requires NoRepeats(keys) && from <= i < |keys|
    ensures Without(keys[from..], keys[i]) == keys[from..i] + keys[i + 1..]
  {
    assert keys[from..][i - from] == keys[i];
    WithoutAt(keys[from..], i - from);
  }

  lemma DroppedAt(keys: seq<string>, from: nat, i: nat)
    requires NoRepeats(keys) && i < from <= |keys|
    ensures Without(keys[from..], keys[i]) == keys[from..]
  {
    WithoutNone(keys[from..], keys[i]);
  }

  lemma NewestTouched(keys: seq<string>, text: string, max: nat)
    requires NoRepeats(keys)
    ensures Newest(Without(keys, text) + [text], max) == Touched(Newest(keys, max), text, max)
  {
    var from := if |keys| > max then |keys| - max else 0;
    assert Newest(keys, max) == keys[from..];
    hide NoRepeats, Newest;
    if text !in keys {
      WithoutNone(keys, text);
      WithoutNone(keys[from..], text);
      NewestOfMore(keys, text, max);
    } else {
      var i :| 0 <= i < |keys| && keys[i] == text;
      WithoutAt(keys, i);
      NewestOfMoved(keys, text, max, i);
      if from <= i { KeptAt(keys, from, i); } else { DroppedAt(keys, from, i); }
    }
  }

  /** After any history the memo holds exactly the last `max` distinct texts asked for,
      in the order of their latest request. */
  lemma {:induction false} HoldsTheLatest(history: seq<string>, max: nat)
    ensures AfterAll(history, max) == Newest(ByLatest(history), max)
  {
    if history != [] {
      var before, text := history[..|history| - 1], history[|history| - 1];
      HoldsTheLatest(before, max);
      ByLatestOn(before, text);
      ByLatestHas(before);
      NewestTouched(ByLatest(before), text, max);
      assert before + [text] == history;
    }
  }
}
