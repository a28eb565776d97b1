/**
 * The initial-password generator of Backend/controller/userController.js
 * (`getRandomChar`, `generatePassword`).
 *
 * Randomness is a parameter: `getRandomChar`'s `Math.floor(Math.random() * 62)`
 * is an index below 62, and the shuffle `split('').sort(() => 0.5 - Math.random())`
 * is a comparison sort driven by coin flips, so its outcome is some
 * arrangement of the characters.  The model does not follow the engine's
 * sorting steps: it describes the possible outcomes by inserting each next
 * character at a chosen slot among those already placed, a scheme that
 * reaches every arrangement and nothing else.
 */
module Password {

  const Uppercase: string := "ABCDEFGHIJKLMNOPQRSTUVWXYZ"
  const Lowercase: string := "abcdefghijklmnopqrstuvwxyz"
  const Digits: string := "0123456789"

  /** The 62 characters `getRandomChar` draws from, in the source's order. */
  const Alphabet: string := Uppercase + Lowercase + Digits

  predicate IsAlphanumeric(c: char)
  {
    'A' <= c <= 'Z' || 'a' <= c <= 'z' || '0' <= c <= '9'
  }

  lemma UppercaseAt(k: nat)
    requires k < |Uppercase|
    ensures Uppercase[k] as int == 'A' as int + k
  {
  }

  lemma LowercaseAt(k: nat)
    requires k < |Lowercase|
    ensures Lowercase[k] as int == 'a' as int + k
  {
  }

  lemma DigitsAt(k: nat)
    requires k < |Digits|
    ensures Digits[k] as int == '0' as int + k
  {
  }

  /** `getRandomChar`, with the random index `k` chosen by the caller. */
  function RandomChar(k: nat): (c: char)
    requires k < |Alphabet|
    ensures IsAlphanumeric(c)
  {
    if k < 26 then UppercaseAt(k); Alphabet[k]
    else if k < 52 then LowercaseAt(k - 26); Alphabet[k]
    else DigitsAt(k - 52); Alphabet[k]
  }

  /** Every letter and digit can be drawn: the alphabet is exactly A-Z, a-z, 0-9. */
  lemma EveryAlphanumericCanBeDrawn(c: char)
    requires IsAlphanumeric(c)
    ensures exists k: nat :: k < |Alphabet| && RandomChar(k) == c
  {
    var k := if c <= '9' then c as int - '0' as int + 52
             else if c <= 'Z' then c as int - 'A' as int
             else c as int - 'a' as int + 26;
    if k < 26 {
      UppercaseAt(k);
    } else if k < 52 {
      LowercaseAt(k - 26);
    } else {
      DigitsAt(k - 52);
    }
    assert RandomChar(k) == c;
  }

  function Min2(n: nat): nat
  {
    if n < 2 then n else 2
  }

  /** `s.substring(0, 2)`. */
  function Leading2(s: string): (r: string)
    ensures |r| == Min2(|s|)
    ensures r == s[..|r|]
  {
    if |s| <= 2 then s else s[..2]
  }

  /** `s.substring(s.length - 2)`: a negative start counts as 0, so a shorter string is kept whole. */
  function Trailing2(s: string): (r: string)
    ensures |r| == Min2(|s|)
    ensures r == s[|s| - |r|..]
  {
    if |s| <= 2 then s else s[|s| - 2..]
  }

  /** The template `${part1}${part2}${part3}${randomPart}` before shuffling. */
  function Fragments(firstname: string, email: string, mobile: string, k1: nat, k2: nat): string
    requires k1 < |Alphabet| && k2 < |Alphabet|
  {
    Leading2(firstname) + Leading2(email) + Trailing2(mobile) + [RandomChar(k1), RandomChar(k2)]
  }

  function PasswordLength(firstname: string, email: string, mobile: string): nat
  {
    Min2(|firstname|) + Min2(|email|) + Min2(|mobile|) + 2
  }

  /** Insertion slots for `n` characters: the i-th goes somewhere among the first i + 1 places. */
  predicate ValidSlots(slots: seq<nat>, n: nat)
  {
    |slots| == n && forall i :: 0 <= i < n ==> slots[i] <= i
  }

  function InsertAt(r: string, k: nat, c: char): string
    requires k <= |r|
  {
    r[..k] + [c] + r[k..]
  }

  /** The random-comparator sort: each next character is inserted at its slot. */
  function Shuffle(s: string, slots: seq<nat>): (r: string)
    requires ValidSlots(slots, |s|)
    decreases |s|
    ensures |r| == |s|
  {
    if s == [] then []
    else
      var n := |s| - 1;
      InsertAt(Shuffle(s[..n], slots[..n]), slots[n], s[n])
  }

  /** The shuffle only rearranges: its result holds exactly the input's characters. */
  lemma {:induction false} ShufflePermutes(s: string, slots: seq<nat>)
    requires ValidSlots(slots, |s|)
    decreases |s|
    ensures multiset(Shuffle(s, slots)) == multiset(s)
  {
    if s != [] {
      var n := |s| - 1;
      var s', slots' := s[..n], slots[..n];
      assert ValidSlots(slots', n);
      var r := Shuffle(s', slots');
      assert Shuffle(s, slots) == InsertAt(r, slots[n], s[n]);
      ShufflePermutes(s', slots');
      InsertAtAdds(r, slots[n], s[n]);
      assert multiset(s) == multiset(s') + multiset{s[n]} by {
        assert s == s' + [s[n]];
      }
    }
  }

  lemma InsertAtAdds(r: string, k: nat, c: char)
    requires k <= |r|
    ensures multiset(InsertAt(r, k, c)) == multiset(r) + multiset{c}
  {
    assert r == r[..k] + r[k..];
  }

  /** The last character, with one more slot, is inserted into the shuffle of the others. */
  lemma ShuffleStep(s: string, slots: seq<nat>, k: nat)
    requires s != [] && ValidSlots(slots, |s| - 1) && k < |s|
    ensures ValidSlots(slots + [k], |s|)
    ensures Shuffle(s, slots + [k]) == InsertAt(Shuffle(s[..|s| - 1], slots), k, s[|s| - 1])
  {
    assert (slots + [k])[..|s| - 1] == slots;
  }

  /** Removing the character at `k` and inserting it back at `k` restores the string. */
  lemma RemoveThenInsert(p: string, k: nat)
    requires k < |p|
    ensures |p[..k] + p[k + 1..]| == |p| - 1
    ensures InsertAt(p[..k] + p[k + 1..], k, p[k]) == p
  {
    var rest := p[..k] + p[k + 1..];
    assert rest[..k] == p[..k] && rest[k..] == p[k + 1..];
  }

  /** An arrangement of `s` holds `s`'s last character somewhere; without it, it arranges the rest of `s`. */
  lemma FindLast(s: string, p: string) returns (k: nat)
    requires s != [] && multiset(p) == multiset(s)
    ensures k < |p| && p[k] == s[|s| - 1]
    ensures multiset(p[..k] + p[k + 1..]) == multiset(s[..|s| - 1])
  {
    var n := |s| - 1;
    var c := s[n];
    assert multiset(s) == multiset(s[..n]) + multiset{c} by {
      assert s == s[..n] + [c];
    }
    assert c in multiset(p);
    k :| 0 <= k < |p| && p[k] == c;
    var rest := p[..k] + p[k + 1..];
    assert multiset(p) == multiset(rest) + multiset{c} by {
      assert p == p[..k] + [c] + p[k + 1..];
    }
    MultisetCancel(multiset(rest), multiset(s[..n]), c);
  }

  lemma MultisetCancel(a: multiset<char>, b: multiset<char>, c: char)
    requires a + multiset{c} == b + multiset{c}
    ensures a == b
  {
    forall x
      ensures a[x] == b[x]
    {
      assert (a + multiset{c})[x] == (b + multiset{c})[x];
    }
  }

  /** Slots under which the shuffle turns `s` into its arrangement `p`. */
  lemma {:induction false} SlotsFor(s: string, p: string) returns (slots: seq<nat>)
    requires multiset(p) == multiset(s)
    ensures ValidSlots(slots, |s|) && Shuffle(s, slots) == p
  {
    if s == [] {
      assert |p| == |multiset(p)| == 0;
      slots := [];
    } else {
      var n := |s| - 1;
      var k := FindLast(s, p);
      var rest := p[..k] + p[k + 1..];
      RemoveThenInsert(p, k);
      var slots' := SlotsFor(s[..n], rest);
      ShuffleStep(s, slots', k);
      slots := slots' + [k];
      calc {
        Shuffle(s, slots);
        InsertAt(Shuffle(s[..n], slots'), k, s[n]);
        InsertAt(rest, k, p[k]);
        p;
      }
    }
  }

  /** The shuffle can produce every permutation of its input, and nothing else. */
  lemma ShuffleReachesEveryPermutation(s: string, p: string)
    requires multiset(p) == multiset(s)
    ensures exists slots :: ValidSlots(slots, |s|) && Shuffle(s, slots) == p
  {
    var slots := SlotsFor(s, p);
  }

  /**
   * `generatePassword(firstname, email, mobile)`: a permutation of the first two
   * characters of the first name and of the email, the last two of the mobile
   * number, and two random alphanumerics.
   */
  function GeneratePassword(firstname: string, email: string, mobile: string, k1: nat, k2: nat, slots: seq<nat>): string
    requires k1 < |Alphabet| && k2 < |Alphabet|
    requires ValidSlots(slots, PasswordLength(firstname, email, mobile))
  {
    Shuffle(Fragments(firstname, email, mobile, k1, k2), slots)
  }

  /** A generated password has the fragments' length and is an arrangement of exactly their characters. */
  lemma GeneratedPasswordShape(firstname: string, email: string, mobile: string, k1: nat, k2: nat, slots: seq<nat>)
    requires k1 < |Alphabet| && k2 < |Alphabet|
    requires ValidSlots(slots, PasswordLength(firstname, email, mobile))
    ensures var p := GeneratePassword(firstname, email, mobile, k1, k2, slots);
      && |p| == Min2(|firstname|) + Min2(|email|) + Min2(|mobile|) + 2
      && multiset(p) ==
           multiset(Leading2(firstname)) + multiset(Leading2(email)) + multiset(Trailing2(mobile)) +
           multiset{RandomChar(k1), RandomChar(k2)}
  {
    ShufflePermutes(Fragments(firstname, email, mobile, k1, k2), slots);
  }

  /** Conversely, every arrangement of the fragments is a password the generator can return. */
  lemma EveryArrangementIsGenerated(firstname: string, email: string, mobile: string, k1: nat, k2: nat, p: string)
    requires k1 < |Alphabet| && k2 < |Alphabet|
    requires multiset(p) == multiset(Fragments(firstname, email, mobile, k1, k2))
    ensures exists slots ::
      (ValidSlots(slots, PasswordLength(firstname, email, mobile)) &&
       GeneratePassword(firstname, email, mobile, k1, k2, slots) == p)
  {
    var fragments := Fragments(firstname, email, mobile, k1, k2);
    ShuffleReachesEveryPermutation(fragments, p);
    var slots :| ValidSlots(slots, |fragments|) && Shuffle(fragments, slots) == p;
    assert GeneratePassword(firstname, email, mobile, k1, k2, slots) == p;
  }

}
