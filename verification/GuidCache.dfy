/** The GUID cache (platform/cf/cache.go): keys, expiry, and what a hit says about the writes that came before it. */
module GuidCache {
  import opened Lifecycle

  datatype Entry = Entry(guid: string, expiry: int)

  /** What is looked up: an org by name, or a space by its org's GUID and its name. */
  datatype Query = Org(name: string) | Space(org: string, name: string)

  function KeyOf(q: Query): string {
    match q
    case Org(name) => "org:" + name
    case Space(org, name) => "space:" + org + ":" + name
  }

  predicate ColonFree(s: string) { ':' !in s }

  predicate Good(q: Query) { q.Space? ==> ColonFree(q.org) }

  /** With colon-free org GUIDs a cache key tells what was looked up, whatever the names of orgs and spaces. */
  lemma KeysInjective(p: Query, q: Query)
    requires Good(p) && Good(q) && KeyOf(p) == KeyOf(q)
    ensures p == q
  {
    var s := KeyOf(p);
    assert s[0] == if p.Org? then 'o' else 's';
    assert KeyOf(q)[0] == if q.Org? then 'o' else 's';
    match (p, q)
    case (Org(a), Org(b)) =>
      assert s[4..] == a && s[4..] == b;
    case (Org(a), Space(b, y)) =>
    case (Space(a, x), Org(b)) =>
    case (Space(a, x), Space(b, y)) =>
      FirstColon(a, x);
      FirstColon(b, y);
      assert s[6..] == a + ":" + x && s[6..] == b + ":" + y;
      assert |a| == |b|;
      assert s[6..][..|a|] == a && s[6..][..|b|] == b;
      assert s[6..][|a| + 1..] == x && s[6..][|b| + 1..] == y;
  }

  lemma FirstColon(a: string, x: string)
    requires ColonFree(a)
    ensures (a + ":" + x)[|a|] == ':' && forall k | 0 <= k < |a| :: (a + ":" + x)[k] != ':'
  {
    forall k | 0 <= k < |a|
      ensures (a + ":" + x)[k] != ':'
    {
      assert (a + ":" + x)[k] == a[k];
    }
  }

  /** Two different org GUIDs share a cache key for some space names exactly if one of them, followed by a colon,
      begins the other. */
  lemma KeysMeetIff(g: string, h: string)
    requires g != h
    ensures (exists m: string, n: string :: KeyOf(Space(g, m)) == KeyOf(Space(h, n))) <==> g + ":" <= h || h + ":" <= g
  {
    if m: string, n: string :| KeyOf(Space(g, m)) == KeyOf(Space(h, n)) {
      if |g| <= |h| { LongerGuid(g, m, h, n); } else { LongerGuid(h, n, g, m); }
    }
    if g + ":" <= h { ShareKey(g, h); }
    if h + ":" <= g { ShareKey(h, g); }
  }

  lemma ShareKey(g: string, h: string)
    requires g + ":" <= h
    ensures KeyOf(Space(g, h[|g| + 1..] + ":")) == KeyOf(Space(h, ""))
  {
    var n := h[|g| + 1..];
    assert h == g + ":" + n;
    assert "space:" + g + ":" + (n + ":") == "space:" + (g + ":" + n) + ":" + "";
  }

  lemma LongerGuid(g: string, m: string, h: string, n: string)
    requires KeyOf(Space(g, m)) == KeyOf(Space(h, n)) && |g| <= |h| && g != h
    ensures g + ":" <= h
  {
    var s := KeyOf(Space(g, m));
    assert s[6..] == g + ":" + m && s[6..] == h + ":" + n;
    assert s[6..][..|g|] == g && s[6..][..|h|] == h;
    assert |h| > |g|;
    assert s[6..][|g|] == ':';
    assert h[..|g| + 1] == g + ":";
  }

  /** An entry is good up to and including its expiry. */
  function Hit(entries: map<string, Entry>, key: string, now: int): Option<string> {
    if key in entries && now <= entries[key].expiry then Some(entries[key].guid) else None
  }

  datatype Write = Write(key: string, guid: string, at: int)

  function Replay(writes: seq<Write>, ttl: int): map<string, Entry>
    decreases |writes|
  {
    if writes == [] then map[]
    else
      var last := writes[|writes| - 1];
      Replay(writes[..|writes| - 1], ttl)[last.key := Entry(last.guid, last.at + ttl)]
  }

  /** Write i is the newest one of its key. */
  ghost predicate Newest(writes: seq<Write>, key: string, i: int) {
    0 <= i < |writes| && writes[i].key == key && forall k | i < k < |writes| :: writes[k].key != key
  }

  /** get answers a GUID if and only if the newest set of that key stored it, at most ttl ago. */
  lemma {:induction false} HitIff(writes: seq<Write>, ttl: int, key: string, now: int, guid: string)
    ensures Hit(Replay(writes, ttl), key, now) == Some(guid) <==>
              exists i :: Newest(writes, key, i) && writes[i].guid == guid && now <= writes[i].at + ttl
    decreases |writes|
  {
    if writes != [] {
      var n := |writes| - 1;
      var front := writes[..n];
      if writes[n].key == key {
        assert Newest(writes, key, n);
        assert forall i | Newest(writes, key, i) :: i == n;
      } else {
        HitIff(front, ttl, key, now, guid);
        assert forall i :: Newest(front, key, i) <==> Newest(writes, key, i);
      }
    }
  }

  class GuidCache {
    var entries: map<string, Entry>
    const ttl: int
    ghost var writes: seq<Write>

    ghost predicate Valid()
      reads this
    {
      entries == Replay(writes, ttl)
    }

    constructor (ttl: int)
      ensures Valid() && writes == [] && entries == map[] && this.ttl == ttl
    {
      this.ttl := ttl;
      entries, writes := map[], [];
    }

    method Get(key: string, now: int) returns (guid: Option<string>)
      requires Valid()
      ensures guid == Hit(entries, key, now)
      ensures forall g :: guid == Some(g) <==>
              exists i :: Newest(writes, key, i) && writes[i].guid == g && now <= writes[i].at + ttl
    {
      forall g {
        HitIff(writes, ttl, key, now, g);
      }
      if key !in entries || now > entries[key].expiry {
        return None;
      }
      guid := Some(entries[key].guid);
    }

    method Set(key: string, guid: string, now: int)
      requires Valid()
      modifies this
      ensures Valid() && writes == old(writes) + [Write(key, guid, now)]
      ensures entries == old(entries)[key := Entry(guid, now + ttl)]
    {
      entries := entries[key := Entry(guid, now + ttl)];
      writes := writes + [Write(key, guid, now)];
      assert writes[..|writes| - 1] == old(writes);
    }
  }
}
