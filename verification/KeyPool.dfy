/** A provider's API keys: round-robin over the live ones, cooling after a 429. */
module KeyPools {
  import opened Prelude

  datatype Pool = Pool(keys: seq<string>, defaultCooldown: real, until: map<string, real>, cursor: nat)

  function UntilOf(p: Pool, key: string): real {
    if key in p.until then p.until[key] else 0.0
  }

  predicate Live(p: Pool, key: string, now: real) {
    UntilOf(p, key) <= now
  }

  predicate AllCool(p: Pool, now: real) {
    forall key | key in p.keys :: !Live(p, key, now)
  }

  function CleanedOne(key: string): seq<string> {
    if Strip(key) == "" then [] else [Strip(key)]
  }

  function Cleaned(raw: seq<string>): seq<string> {
    if raw == [] then [] else Cleaned(raw[..|raw| - 1]) + CleanedOne(raw[|raw| - 1])
  }

  /** At most left steps of the round-robin scan: the new cursor and the live key found. */
  function Scan(p: Pool, now: real, left: nat): (nat, Option<string>)
    requires p.keys != []
    decreases left
  {
    var key := p.keys[p.cursor % |p.keys|];
    if left == 0 then (p.cursor, None)
    else if Live(p, key, now) then (p.cursor + 1, Some(key))
    else Scan(p.(cursor := p.cursor + 1), now, left - 1)
  }

  /** Python's min over the keys from position k on: the earliest of the soonest-free ones. */
  function Soonest(p: Pool, k: nat): (j: nat)
    requires k < |p.keys|
    ensures k <= j < |p.keys|
    ensures forall i | k <= i < |p.keys| :: UntilOf(p, p.keys[j]) <= UntilOf(p, p.keys[i])
    ensures forall i | k <= i < j :: UntilOf(p, p.keys[j]) < UntilOf(p, p.keys[i])
    decreases |p.keys| - k
  {
    if k + 1 == |p.keys| then k
    else
      var j := Soonest(p, k + 1);
      if UntilOf(p, p.keys[j]) < UntilOf(p, p.keys[k]) then j else k
  }

  function Next(p: Pool, now: real): (Pool, string)
    requires p.keys != []
  {
    var (cursor, found) := Scan(p, now, |p.keys|);
    (p.(cursor := cursor), if found.Some? then found.value else p.keys[Soonest(p, 0)])
  }

  function Report(p: Pool, key: string, now: real, cooldown: Option<real>): Pool {
    var seconds := if cooldown.None? then p.defaultCooldown else if cooldown.value < 0.0 then 0.0 else cooldown.value;
    p.(until := p.until[key := now + seconds])
  }

  class KeyPool {
    const keys: seq<string>
    const defaultCooldown: real
    var until: map<string, real>
    var cursor: nat

    ghost function View(): Pool
      reads this
    {
      Pool(keys, defaultCooldown, until, cursor)
    }

    constructor (keys: seq<string>, defaultCooldown: real)
      ensures View() == Pool(keys, defaultCooldown, map[], 0)
    {
      this.keys := keys;
      this.defaultCooldown := defaultCooldown;
      until := map[];
      cursor := 0;
    }

    /** The source's constructor, which strips the keys and refuses a pool without any. */
    static method Create(raw: seq<string>, defaultCooldown: real) returns (pool: KeyPool?)
      ensures pool == null <==> forall key | key in raw :: IsBlank(key)
      ensures pool != null ==> fresh(pool) && pool.keys != [] && pool.View() == Pool(Cleaned(raw), defaultCooldown, map[], 0)
    {
      var cleaned := [];
      for k := 0 to |raw|
        invariant cleaned == Cleaned(raw[..k])
      {
        var stripped := Strip(raw[k]);
        assert raw[..k + 1][..k] == raw[..k];
        if stripped != "" {
          cleaned := cleaned + [stripped];
        }
      }
      assert raw[..|raw|] == raw;
      CleanedIsEmpty(raw);
      if cleaned == [] {
        return null;
      }
      pool := new KeyPool(cleaned, defaultCooldown);
    }

    method NextLiveKey(now: real) returns (key: string)
      requires keys != []
      modifies this`cursor
      ensures (View(), key) == Next(old(View()), now)
    {
      var n := |keys|;
      for k := 0 to n
        invariant Scan(View(), now, n - k) == Scan(old(View()), now, n)
        invariant View() == old(View()).(cursor := cursor)
      {
        var candidate := keys[cursor % n];
        cursor := cursor + 1;
        if (if candidate in until then until[candidate] else 0.0) <= now {
          return candidate;
        }
      }
      var j := n - 1;
      for k := n - 1 downto 0
        invariant j == Soonest(old(View()), k)
      {
        if (if keys[k] in until then until[keys[k]] else 0.0) <= (if keys[j] in until then until[keys[j]] else 0.0) {
          j := k;
        }
      }
      return keys[j];
    }

    method ReportRateLimit(key: string, now: real, cooldown: Option<real>)
      modifies this`until
      ensures View() == Report(old(View()), key, now, cooldown)
    {
      var seconds := defaultCooldown;
      if cooldown.Some? {
        seconds := if cooldown.value < 0.0 then 0.0 else cooldown.value;
      }
      until := until[key := now + seconds];
    }

    method AllCooling(now: real) returns (all: bool)
      ensures all <==> AllCool(View(), now)
    {
      for k := 0 to |keys|
        invariant forall i | 0 <= i < k :: !Live(View(), keys[i], now)
      {
        if (if keys[k] in until then until[keys[k]] else 0.0) <= now {
          assert keys[k] in View().keys;
          return false;
        }
      }
      return true;
    }
  }

  /** One of the keys is not blank. */
  ghost predicate SomeKey(raw: seq<string>) {
    exists i :: KeyAt(raw, i)
  }

  predicate KeyAt(raw: seq<string>, i: int) {
    0 <= i < |raw| && !IsBlank(raw[i])
  }

  lemma KeyAtFront(raw: seq<string>, i: int)
    requires raw != []
    ensures KeyAt(raw, i) <==> KeyAt(raw[..|raw| - 1], i) || (i == |raw| - 1 && !IsBlank(raw[|raw| - 1]))
  {
  }

  lemma SomeKeyFront(raw: seq<string>)
    requires raw != []
    ensures SomeKey(raw) <==> SomeKey(raw[..|raw| - 1]) || !IsBlank(raw[|raw| - 1])
  {
    var front := raw[..|raw| - 1];
    if i :| KeyAt(raw, i) {
      KeyAtFront(raw, i);
    }
    if i :| KeyAt(front, i) {
      KeyAtFront(raw, i);
    }
    if !IsBlank(raw[|raw| - 1]) {
      assert KeyAt(raw, |raw| - 1);
    }
  }

  lemma CleanedFront(raw: seq<string>)
    requires raw != []
    ensures Cleaned(raw) == [] <==> Cleaned(raw[..|raw| - 1]) == [] && IsBlank(raw[|raw| - 1])
  {
    CleanedBlank(raw[|raw| - 1]);
    NothingOfBoth(Cleaned(raw[..|raw| - 1]), CleanedOne(raw[|raw| - 1]));
  }

  lemma CleanedBlank(key: string)
    ensures CleanedOne(key) == [] <==> IsBlank(key)
  {
    StripOfBlank(key);
  }

  lemma NothingOfBoth(a: seq<string>, b: seq<string>)
    ensures a + b == [] <==> a == [] && b == []
  {
  }

  lemma {:induction false} CleanedHasKeys(raw: seq<string>)
    ensures Cleaned(raw) != [] <==> SomeKey(raw)
    decreases |raw|
  {
    if raw != [] {
      CleanedHasKeys(raw[..|raw| - 1]);
      CleanedFront(raw);
      SomeKeyFront(raw);
    }
  }

  lemma CleanedIsEmpty(raw: seq<string>)
    ensures Cleaned(raw) == [] <==> forall key | key in raw :: IsBlank(key)
  {
    CleanedHasKeys(raw);
    if SomeKey(raw) {
      var i :| KeyAt(raw, i);
      assert raw[i] in raw;
    } else {
      forall key | key in raw
        ensures IsBlank(key) {
        var i :| 0 <= i < |raw| && raw[i] == key;
        assert !KeyAt(raw, i);
      }
    }
  }

  function NotBlank(raw: seq<string>): seq<string> {
    if raw == [] then [] else (if IsBlank(raw[0]) then [] else [raw[0]]) + NotBlank(raw[1..])
  }

  ghost predicate IsStripped(s: string, r: string) {
    exists i :: StrippedAt(s, r, i)
  }

  lemma {:induction false} NotBlankLast(raw: seq<string>, key: string)
    ensures NotBlank(raw + [key]) == NotBlank(raw) + if IsBlank(key) then [] else [key]
  {
    if raw == [] {
      assert raw + [key] == [key] && [key][1..] == [];
    } else {
      var first := if IsBlank(raw[0]) then [] else [raw[0]];
      assert (raw + [key])[0] == raw[0] && (raw + [key])[1..] == raw[1..] + [key];
      NotBlankLast(raw[1..], key);
      PrependedLast(first, NotBlank(raw[1..]), if IsBlank(key) then [] else [key]);
    }
  }

  lemma PrependedLast(a: seq<string>, b: seq<string>, c: seq<string>)
    ensures a + (b + c) == (a + b) + c
  {
  }

  ghost predicate AllStripped(raw: seq<string>, cleaned: seq<string>) {
    |cleaned| == |raw| && forall k | 0 <= k < |raw| :: IsStripped(raw[k], cleaned[k])
  }

  lemma StrippedOneMore(raw: seq<string>, cleaned: seq<string>, key: string, r: string)
    requires AllStripped(raw, cleaned) && IsStripped(key, r)
    ensures AllStripped(raw + [key], cleaned + [r])
  {
  }

  lemma CleanedOneMeaning(key: string)
    ensures CleanedOne(key) == (if IsBlank(key) then [] else [Strip(key)]) && IsStripped(key, Strip(key))
  {
    StripOfBlank(key);
    StripMeaning(key);
  }

  /** The keys of the pool are those that are not blank, in their order, each without the spaces around it. */
  lemma {:induction false} CleanedMeaning(raw: seq<string>)
    ensures AllStripped(NotBlank(raw), Cleaned(raw))
  {
    if raw != [] {
      var front, key := raw[..|raw| - 1], raw[|raw| - 1];
      CleanedMeaning(front);
      assert raw == front + [key];
      NotBlankLast(front, key);
      CleanedOneMeaning(key);
      if IsBlank(key) {
        assert NotBlank(front) + [] == NotBlank(front) && Cleaned(front) + [] == Cleaned(front);
      } else {
        StrippedOneMore(NotBlank(front), Cleaned(front), key, Strip(key));
      }
    }
  }

  /** A reported key is free again exactly when its cooldown is over, which is the pool's own or the given
      one, and at least nothing; the other keys are as they were. */
  lemma ReportMeaning(p: Pool, key: string, now: real, cooldown: Option<real>, other: string, t: real)
    ensures var q := Report(p, key, now, cooldown);
            && q.keys == p.keys && q.cursor == p.cursor && q.defaultCooldown == p.defaultCooldown
            && (Live(q, key, t) <==>
                  match cooldown
                  case None => t - now >= p.defaultCooldown
                  case Some(seconds) => t - now >= seconds && t >= now)
            && (other != key ==> (Live(q, other, t) <==> Live(p, other, t)))
  {
  }

  // ---------------------------------------------------------------------------------------------
  // What a pick is
  // ---------------------------------------------------------------------------------------------

  lemma MultipleOf(n: nat, d: int)
    ensures d >= 1 ==> n * d >= n
    ensures d <= -1 ==> n * d <= 0 - n
  {
    if d >= 1 {
      assert n * d == n * (d - 1) + n;
    } else if d <= -1 {
      assert n * d == n * (d + 1) - n;
    }
  }

  lemma ModuloOf(q: nat, n: nat, i: nat)
    requires i < n
    ensures (q * n + i) % n == i
  {
    var x := q * n + i;
    assert n * (q - x / n) == x % n - i;
    MultipleOf(n, q - x / n);
  }

  /** n steps of the cursor visit every position. */
  lemma CursorVisits(cursor: nat, n: nat, i: nat) returns (offset: nat)
    requires i < n
    ensures offset < n && (cursor + offset) % n == i
  {
    var q, c := cursor / n, cursor % n;
    assert cursor == q * n + c;
    if c <= i {
      offset := i - c;
      ModuloOf(q, n, i);
    } else {
      offset := n - c + i;
      assert (q + 1) * n == q * n + n;
      ModuloOf(q + 1, n, i);
    }
  }

  lemma {:induction false} ScanMeaning(p: Pool, now: real, left: nat)
    requires p.keys != []
    ensures var (cursor, found) := Scan(p, now, left);
            && p.cursor <= cursor <= p.cursor + left
            && (found.Some? ==>
                  && cursor > p.cursor && found.value == p.keys[(cursor - 1) % |p.keys|]
                  && Live(p, found.value, now)
                  && (forall c | p.cursor <= c < cursor - 1 :: !Live(p, p.keys[c % |p.keys|], now)))
            && (found.None? ==>
                  && cursor == p.cursor + left
                  && (forall c | p.cursor <= c < p.cursor + left :: !Live(p, p.keys[c % |p.keys|], now)))
    decreases left
  {
    if left > 0 && !Live(p, p.keys[p.cursor % |p.keys|], now) {
      ScanMeaning(p.(cursor := p.cursor + 1), now, left - 1);
    }
  }

  /** A pick is the first live key from the cursor on. Only when every key is cooling is it the one
      that is free soonest, the earliest listed among equals. */
  lemma PickMeaning(p: Pool, now: real)
    requires p.keys != []
    ensures var (q, key) := Next(p, now);
            && q == p.(cursor := q.cursor) && key in p.keys
            && (AllCool(p, now) <==> !Live(p, key, now))
            && (!AllCool(p, now) ==>
                  && p.cursor < q.cursor && key == p.keys[(q.cursor - 1) % |p.keys|]
                  && (forall c | p.cursor <= c < q.cursor - 1 :: !Live(p, p.keys[c % |p.keys|], now)))
            && (AllCool(p, now) ==> q.cursor == p.cursor + |p.keys|)
            && (AllCool(p, now) ==> forall other | other in p.keys :: UntilOf(p, key) <= UntilOf(p, other))
            && (AllCool(p, now) ==> exists j | 0 <= j < |p.keys| ::
                  p.keys[j] == key && forall i | 0 <= i < j :: UntilOf(p, key) < UntilOf(p, p.keys[i]))
  {
    var n := |p.keys|;
    ScanMeaning(p, now, n);
    var (cursor, found) := Scan(p, now, n);
    if found.None? {
      forall key | key in p.keys
        ensures !Live(p, key, now) {
        var i :| 0 <= i < n && p.keys[i] == key;
        var offset := CursorVisits(p.cursor, n, i);
        assert !Live(p, p.keys[(p.cursor + offset) % n], now);
      }
      assert p.keys[Soonest(p, 0)] in p.keys;
    }
  }
}
