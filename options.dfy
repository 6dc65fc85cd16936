/**
 * The options page (options.js): the blocklist editor and the timer form.
 *
 * The page's `<ul>` of domains is the sequence `items` of a `BlocklistEditor`,
 * in display order; the text boxes and alerts are not modelled, and a value
 * `parseInt` could not read is `None`.
 */
module Options {
  import opened Common
  import Session

  // ---------------------------------------------------------------------------
  // Validation and normalisation
  // ---------------------------------------------------------------------------

  /** One character of the class `[a-z0-9.-]`. */
  predicate DomainChar(c: char) {
    ('a' <= c <= 'z') || ('0' <= c <= '9') || c == '.' || c == '-'
  }

  /**
   * `/^[a-z0-9.-]+$/.test(domain)` (options.js:27): non-empty, every character
   * in the class. Without the `m` flag `$` matches only at the end of the
   * input, so a valid domain holds no white space, not even a final line break.
   */
  predicate ValidDomain(domain: string)
    ensures ValidDomain(domain) ==> |domain| > 0
    ensures ValidDomain(domain) ==> forall i :: 0 <= i < |domain| ==> !IsJsWhitespace(domain[i])
  {
    |domain| > 0 && forall i :: 0 <= i < |domain| ==> DomainChar(domain[i])
  }

  /** The characters `String.prototype.trim` strips: ECMAScript white space and line terminators. */
  predicate IsJsWhitespace(c: char)
    ensures IsJsWhitespace(c) ==> !DomainChar(c)
  {
    || c == '\t' || c == '\n' || c == '\U{B}' || c == '\U{C}' || c == '\r' || c == ' '
    || c == '\U{A0}' || c == '\U{1680}' || ('\U{2000}' <= c <= '\U{200A}')
    || c == '\U{2028}' || c == '\U{2029}' || c == '\U{202F}' || c == '\U{205F}'
    || c == '\U{3000}' || c == '\U{FEFF}'
  }

  /** `s` without its leading white space. */
  function TrimStart(s: string): (r: string)
    ensures |r| <= |s| && r == s[|s| - |r|..]
    ensures forall i :: 0 <= i < |s| - |r| ==> IsJsWhitespace(s[i])
    ensures r == [] || !IsJsWhitespace(r[0])
  {
    if |s| > 0 && IsJsWhitespace(s[0]) then TrimStart(s[1..]) else s
  }

  /** `s` without its trailing white space. */
  function TrimEnd(s: string): (r: string)
    ensures |r| <= |s| && r == s[..|r|]
    ensures forall i :: |r| <= i < |s| ==> IsJsWhitespace(s[i])
    ensures r == [] || !IsJsWhitespace(r[|r| - 1])
  {
    if |s| > 0 && IsJsWhitespace(s[|s| - 1]) then TrimEnd(s[..|s| - 1]) else s
  }

  /**
   * `toLowerCase` on one character. The Latin capitals and the Kelvin sign
   * (which lowers to `k`) are the only characters whose lower case lies in
   * `[a-z0-9.-]`; every other character is kept, since validation rejects it
   * whatever its case.
   */
  function LowerChar(c: char): (r: char)
    ensures !('A' <= r <= 'Z')
    ensures DomainChar(c) || IsJsWhitespace(c) ==> r == c
    ensures DomainChar(r) && !DomainChar(c) ==> 'A' <= c <= 'Z' || c == '\U{212A}'
  {
    if 'A' <= c <= 'Z' then (c as int + 32) as char
    else if c == '\U{212A}' then 'k'
    else c
  }

  /** One step of `TrimStart`: a leading white-space character is dropped. */
  lemma TrimStartStep(s: string)
    requires |s| > 0
    ensures TrimStart(s) == if IsJsWhitespace(s[0]) then TrimStart(s[1..]) else s
  {
  }

  /** One step of `TrimEnd`: a trailing white-space character is dropped. */
  lemma TrimEndStep(s: string)
    requires |s| > 0
    ensures TrimEnd(s) == if IsJsWhitespace(s[|s| - 1]) then TrimEnd(s[..|s| - 1]) else s
  {
  }

  /** `trim()`: empty exactly when `s` is all white space. */
  function Trim(s: string): (r: string)
    ensures |r| == 0 <==> forall i :: 0 <= i < |s| ==> IsJsWhitespace(s[i])
  {
    var start := TrimStart(s);
    var r := TrimEnd(start);
    assert |start| > 0 ==> |r| > 0 by {
      if |start| > 0 {
        assert !IsJsWhitespace(start[0]);
      }
    }
    r
  }

  /** `toLowerCase()`: same length, and no Latin capital is left. */
  function ToLower(s: string): (r: string)
    ensures |r| == |s|
    ensures forall i :: 0 <= i < |r| ==> r[i] == LowerChar(s[i]) && !('A' <= r[i] <= 'Z')
  {
    seq(|s|, i requires 0 <= i < |s| => LowerChar(s[i]))
  }

  /**
   * The "Add" button's normalisation (options.js:14): `trim()` then
   * `toLowerCase()`. The result is empty exactly when the input is all white
   * space, and has no capital letter.
   */
  function Normalize(input: string): (d: string)
    ensures |d| == 0 <==> forall i :: 0 <= i < |input| ==> IsJsWhitespace(input[i])
    ensures forall i :: 0 <= i < |d| ==> !('A' <= d[i] <= 'Z')
  {
    ToLower(Trim(input))
  }

  /** A valid domain is already normalised: typing it adds it exactly as typed. */
  lemma {:induction false} NormalizeKeepsValid(domain: string)
    requires ValidDomain(domain)
    ensures Normalize(domain) == domain
  {
    TrimStartStep(domain);
    TrimEndStep(domain);
    assert Trim(domain) == domain;
    var lower := ToLower(domain);
    assert forall i :: 0 <= i < |lower| ==> lower[i] == domain[i];
  }

  // ---------------------------------------------------------------------------
  // The list
  // ---------------------------------------------------------------------------

  predicate NoDuplicates(items: seq<string>) {
    forall i, j :: 0 <= i < j < |items| ==> items[i] != items[j]
  }

  predicate AllValid(items: seq<string>) {
    forall i :: 0 <= i < |items| ==> ValidDomain(items[i])
  }

  /** What `addItem` does to the list (options.js:26-39): a valid, new domain goes at the end. */
  function WithItem(items: seq<string>, domain: string): (r: seq<string>)
    ensures r == items || r == items + [domain]
    ensures r == items + [domain] <==> ValidDomain(domain) && domain !in items
  {
    if !ValidDomain(domain) || domain in items then items else items + [domain]
  }

  /** The list `load` builds (options.js:46-48): `addItem` applied to each stored entry in turn. */
  function Rebuilt(stored: seq<string>): (r: seq<string>)
    ensures |r| <= |stored|
  {
    if stored == [] then []
    else WithItem(Rebuilt(stored[..|stored| - 1]), stored[|stored| - 1])
  }

  /** Where `x` first occurs in `s`. */
  function FirstIndex(s: seq<string>, x: string): (k: nat)
    requires x in s
    ensures k < |s| && s[k] == x && x !in s[..k]
  {
    if s[0] == x then 0 else 1 + FirstIndex(s[1..], x)
  }

  /** Adding keeps the list clean, keeps what was there in place, and admits exactly the valid domains. */
  lemma {:induction false} WithItemSpec(items: seq<string>, domain: string)
    requires NoDuplicates(items) && AllValid(items)
    ensures NoDuplicates(WithItem(items, domain)) && AllValid(WithItem(items, domain))
    ensures WithItem(items, domain)[..|items|] == items
    ensures forall x :: x in WithItem(items, domain) <==> x in items || (x == domain && ValidDomain(domain))
  {
    var r := WithItem(items, domain);
    if ValidDomain(domain) && domain !in items {
      assert r[|items|] == domain;
      assert r[..|items|] == items;
    }
  }

  /** An entry of a prefix keeps its first position when the sequence grows. */
  lemma {:induction false} FirstIndexOfPrefix(s: seq<string>, d: string, x: string)
    requires x in s
    ensures FirstIndex(s + [d], x) == FirstIndex(s, x)
  {
    if s[0] != x {
      assert (s + [d])[1..] == s[1..] + [d];
      FirstIndexOfPrefix(s[1..], d, x);
    }
  }

  /** Loading keeps exactly the valid stored entries, each once. */
  lemma {:induction false} RebuiltMembers(stored: seq<string>)
    ensures NoDuplicates(Rebuilt(stored)) && AllValid(Rebuilt(stored))
    ensures forall x :: x in Rebuilt(stored) <==> x in stored && ValidDomain(x)
  {
    if stored != [] {
      var prefix, last := stored[..|stored| - 1], stored[|stored| - 1];
      assert stored == prefix + [last];
      RebuiltMembers(prefix);
      WithItemSpec(Rebuilt(prefix), last);
    }
  }

  /** Loading keeps the stored order of first occurrences. */
  lemma {:induction false} RebuiltOrder(stored: seq<string>)
    ensures forall i, j :: 0 <= i < j < |Rebuilt(stored)| ==>
      Rebuilt(stored)[i] in stored && Rebuilt(stored)[j] in stored &&
      FirstIndex(stored, Rebuilt(stored)[i]) < FirstIndex(stored, Rebuilt(stored)[j])
  {
    if stored != [] {
      var prefix, last := stored[..|stored| - 1], stored[|stored| - 1];
      assert stored == prefix + [last];
      var before := Rebuilt(prefix);
      RebuiltOrder(prefix);
      RebuiltMembers(prefix);
      WithItemSpec(before, last);
      var r := Rebuilt(stored);
      forall i, j | 0 <= i < j < |r|
        ensures r[i] in stored && r[j] in stored && FirstIndex(stored, r[i]) < FirstIndex(stored, r[j])
      {
        assert r[i] == before[i];
        FirstIndexOfPrefix(prefix, last, r[i]);
        if j < |before| {
          assert r[j] == before[j];
          FirstIndexOfPrefix(prefix, last, r[j]);
        } else {
          assert r[j] == last && last !in prefix;
          assert FirstIndex(stored, last) == |prefix| by {
            assert last !in stored[..|prefix|];
          }
        }
      }
      assert r == Rebuilt(stored);
    } else {
      assert Rebuilt(stored) == [];
    }
  }

  /** The result of the "Add" button's handler. */
  datatype AddOutcome =
    | Empty      // nothing left after normalisation: the click is ignored
    | Rejected   // not a valid domain: the page alerts
    | Duplicate  // already listed: silently ignored
    | Added

  /** How `addItem` treats `domain` given the listed `items`. */
  function AddOutcomeOf(items: seq<string>, domain: string): (outcome: AddOutcome)
    ensures outcome != Empty
    ensures outcome == Rejected <==> !ValidDomain(domain)
    ensures outcome == Added <==> WithItem(items, domain) == items + [domain]
    ensures outcome != Added ==> WithItem(items, domain) == items
  {
    if !ValidDomain(domain) then Rejected
    else if domain in items then Duplicate
    else Added
  }

  /** The blocklist as the options page shows it. */
  class BlocklistEditor {
    /** The `.domain` texts of the list entries, top to bottom. */
    var items: seq<string>

    /** Every listed domain is valid and listed once. */
    ghost predicate Valid()
      reads this
    {
      NoDuplicates(items) && AllValid(items)
    }

    constructor ()
      ensures Valid() && items == []
    {
      items := [];
    }

    /**
     * `addItem` (options.js:26-39): an invalid domain is rejected and a listed
     * one ignored, leaving the list as it was; a valid, new domain is appended
     * after the entries already there.
     */
    method AddItem(domain: string) returns (outcome: AddOutcome)
      requires Valid()
      modifies this
      ensures Valid()
      ensures items == WithItem(old(items), domain)
      ensures outcome == AddOutcomeOf(old(items), domain)
      ensures outcome == Added ==> items == old(items) + [domain]
      ensures outcome != Added ==> items == old(items)
    {
      WithItemSpec(items, domain);
      if !ValidDomain(domain) {
        return Rejected;
      }
      if domain in items {
        return Duplicate;
      }
      items := items + [domain];
      outcome := Added;
    }

    /** The "Add" button (options.js:13-18): normalise the text, ignore it when empty, else `addItem`. */
    method SubmitDomain(input: string) returns (outcome: AddOutcome)
      requires Valid()
      modifies this
      ensures Valid()
      ensures items == (if Normalize(input) == [] then old(items) else WithItem(old(items), Normalize(input)))
      ensures outcome == (if Normalize(input) == [] then Empty else AddOutcomeOf(old(items), Normalize(input)))
    {
      var d := Normalize(input);
      if |d| == 0 {
        return Empty;
      }
      outcome := AddItem(d);
    }

    /** An entry's "Remove" button (options.js:37): that entry goes, the others keep their order. */
    method RemoveAt(i: nat)
      requires Valid() && i < |items|
      modifies this
      ensures Valid()
      ensures items == old(items)[..i] + old(items)[i + 1..]
      ensures forall x :: x in items <==> x in old(items) && x != old(items)[i]
    {
      ghost var removed := items[i];
      items := items[..i] + items[i + 1..];
      forall x | x in old(items) && x != removed ensures x in items {
        var k :| 0 <= k < |old(items)| && old(items)[k] == x;
        if k < i {
          assert items[k] == x;
        } else {
          assert k > i && items[k - 1] == x;
        }
      }
    }

    /** `load`'s list part (options.js:46-48): clear the list, then `addItem` each stored entry. */
    method Load(stored: Option<seq<string>>)
      modifies this
      ensures Valid()
      ensures items == Rebuilt(stored.GetOr([]))
    {
      var blocklist := stored.GetOr([]);
      items := [];
      var k := 0;
      while k < |blocklist|
        invariant 0 <= k <= |blocklist|
        invariant items == Rebuilt(blocklist[..k])
        invariant Valid()
      {
        assert blocklist[..k + 1][..k] == blocklist[..k];
        var _ := AddItem(blocklist[k]);
        k := k + 1;
      }
      assert blocklist[..k] == blocklist;
    }
  }

  // ---------------------------------------------------------------------------
  // Timer form
  // ---------------------------------------------------------------------------

  /** `parseInt(value, 10) || fallback` (options.js:7-8), `None` standing for NaN. */
  function OrDefault(parsed: Option<int>, fallback: int): (minutes: int)
    ensures parsed.Some? && parsed.value != 0 ==> minutes == parsed.value
    ensures parsed == None || parsed == Some(0) ==> minutes == fallback
  {
    if parsed.Some? && parsed.value != 0 then parsed.value else fallback
  }

  /**
   * The settings the "Save" button sends (options.js:6-9): each field falls
   * back to its default on NaN or 0, so neither is 0; any other integer,
   * negative ones included, is sent as read.
   */
  function TimerSettingsToSave(focus: Option<int>, brk: Option<int>): (s: Session.Settings)
    ensures s.focusMinutes != 0 && s.breakMinutes != 0
    ensures s.focusMinutes == (if focus.Some? && focus.value != 0 then focus.value else 25)
    ensures s.breakMinutes == (if brk.Some? && brk.value != 0 then brk.value else 5)
  {
    Session.Settings(OrDefault(focus, 25), OrDefault(brk, 5))
  }
}
