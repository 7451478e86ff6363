/** Cleaning of a raw phone string before it is looked up: only the digit
    characters are kept, in their original order (telegram_bot.py:133). */
module Phone {

  /** A decimal digit. Python's `str.isdigit` also accepts non-ASCII digits;
      this model keeps to '0'..'9'. */
  predicate IsDigit(c: char) {
    '0' <= c <= '9'
  }

  predicate AllDigits(s: string) {
    forall k :: 0 <= k < |s| ==> IsDigit(s[k])
  }

  predicate NoDigit(s: string) {
    forall k :: 0 <= k < |s| ==> !IsDigit(s[k])
  }

  /** The digit characters of `s`, in order: `''.join(filter(str.isdigit, s))`. */
  function Digits(s: string): (r: string)
    ensures |r| <= |s|
    ensures AllDigits(r)
    ensures r == [] <==> NoDigit(s)
    decreases |s|
  {
    if s == [] then []
    else if IsDigit(s[0]) then [s[0]] + Digits(s[1..])
    else Digits(s[1..])
  }

  /** `sub` can be obtained from `s` by deleting characters. */
  predicate IsSubsequence(sub: string, s: string)
    decreases |s|
  {
    if sub == [] then true
    else if s == [] then false
    else if sub[0] == s[0] then IsSubsequence(sub[1..], s[1..])
    else IsSubsequence(sub, s[1..])
  }

  /** Cleaning distributes over concatenation: each character is kept or
      dropped on its own, independently of its neighbours. */
  lemma {:induction false} DigitsAppend(a: string, b: string)
    ensures Digits(a + b) == Digits(a) + Digits(b)
    decreases |a|
  {
    if a == [] {
      assert a + b == b;
    } else {
      assert (a + b)[0] == a[0];
      assert (a + b)[1..] == a[1..] + b;
      DigitsAppend(a[1..], b);
    }
  }

  /** A one-character string is kept exactly when it is a digit. Together with
      DigitsAppend this determines Digits on every string. */
  lemma DigitsSingle(c: char)
    ensures Digits([c]) == (if IsDigit(c) then [c] else [])
  {
    assert [c][1..] == [];
  }

  /** A string made only of digits is left unchanged. */
  lemma {:induction false} DigitsOfDigitString(s: string)
    requires AllDigits(s)
    ensures Digits(s) == s
    decreases |s|
  {
    if s != [] {
      DigitsOfDigitString(s[1..]);
    }
  }

  /** Cleaning is idempotent. */
  lemma DigitsIdempotent(s: string)
    ensures Digits(Digits(s)) == Digits(s)
  {
    DigitsOfDigitString(Digits(s));
  }

  /** The cleaned phone keeps the original order of the digits: it is a
      subsequence of the raw input. */
  lemma {:induction false} DigitsIsSubsequence(s: string)
    ensures IsSubsequence(Digits(s), s)
    decreases |s|
  {
    if s != [] {
      DigitsIsSubsequence(s[1..]);
      if IsDigit(s[0]) {
        assert Digits(s)[1..] == Digits(s[1..]);
      } else {
        SubsequenceOfTail(Digits(s), s);
      }
    }
  }

  lemma {:induction false} SubsequenceOfTail(sub: string, s: string)
    requires s != []
    requires IsSubsequence(sub, s[1..])
    ensures IsSubsequence(sub, s)
    decreases |s|, 0
  {
    if sub != [] && sub[0] == s[0] {
      SubsequenceDropHead(sub, s[1..]);
    }
  }

  lemma {:induction false} SubsequenceDropHead(sub: string, s: string)
    requires sub != []
    requires IsSubsequence(sub, s)
    ensures IsSubsequence(sub[1..], s)
    decreases |s|, 1
  {
    if sub[0] != s[0] {
      SubsequenceDropHead(sub, s[1..]);
      SubsequenceOfTail(sub[1..], s);
    } else if sub[1..] != [] {
      SubsequenceOfTail(sub[1..], s);
    }
  }

  /** Every digit of the input survives cleaning. */
  lemma {:induction false} DigitKept(s: string, i: nat)
    requires i < |s| && IsDigit(s[i])
    ensures s[i] in Digits(s)
    decreases |s|
  {
    if i > 0 {
      DigitKept(s[1..], i - 1);
    }
  }

  /** The cleaning loop as the source runs it: one pass over the characters,
      appending each digit. */
  method CleanPhone(phone: string) returns (clean: string)
    ensures clean == Digits(phone)
    ensures AllDigits(clean)
    ensures clean == [] <==> NoDigit(phone)
  {
    clean := [];
    var i := 0;
    while i < |phone|
      invariant i <= |phone|
      invariant clean == Digits(phone[..i])
    {
      assert phone[..i + 1] == phone[..i] + [phone[i]];
      DigitsAppend(phone[..i], [phone[i]]);
      DigitsSingle(phone[i]);
      if IsDigit(phone[i]) {
        clean := clean + [phone[i]];
      }
      i := i + 1;
    }
    assert phone[..i] == phone;
  }
}
