/** The two input patterns shared by the login, registration, password
    recovery and account forms: the e-mail pattern `^[^\s@]+@[^\s@]+\.[^\s@]+$`
    and the phone pattern `^[0-9]{10}$` applied after removing all white space.

    `ValidateEmail` is a small automaton that reads the address once, as a
    regular-expression engine would; `IsEmailShape` is the pattern stated
    directly as a split of the string, and `ValidateEmailCorrect` proves
    them equal. */
module Validators {
  import opened Text

  /** A character of the class `[^\s@]`. */
  predicate Plain(c: char) {
    !IsSpace(c) && c != '@'
  }

  predicate AllPlain(s: string) {
    forall k | 0 <= k < |s| :: Plain(s[k])
  }

  /** The pattern as a split: `s[..a]` is the local part, `s[a]` the only
      '@', and `s[d]` a '.' with at least one character of the domain on
      each side of it; every other character is in `[^\s@]`. */
  ghost predicate IsEmailShape(s: string) {
    exists a, d :: IsEmailAt(s, a, d)
  }

  /** The states of the matcher. */
  datatype EmailState =
    | Start     // nothing read
    | Local     // a non-empty local part
    | AtSign    // the local part and '@'
    | Domain    // at least one domain character, no usable '.' yet
    | Dot       // a '.' that has a domain character before it
    | Complete  // such a '.' with at least one character after it
    | Rejected

  function Step(st: EmailState, c: char): EmailState {
    match st
    case Start => if Plain(c) then Local else Rejected
    case Local => if c == '@' then AtSign else if Plain(c) then Local else Rejected
    case AtSign => if Plain(c) then Domain else Rejected
    case Domain => if c == '.' then Dot else if Plain(c) then Domain else Rejected
    case Dot => if Plain(c) then Complete else Rejected
    case Complete => if Plain(c) then Complete else Rejected
    case Rejected => Rejected
  }

  function Run(st: EmailState, s: string): EmailState
    decreases |s|
  {
    if s == [] then st else Run(Step(st, s[0]), s[1..])
  }

  /** `validateEmail`: the matcher ends in its accepting state. */
  function ValidateEmail(s: string): bool {
    Run(Start, s) == Complete
  }

  lemma {:induction false} RejectedAbsorbs(s: string)
    ensures Run(Rejected, s) == Rejected
  {
    if s != [] {
      RejectedAbsorbs(s[1..]);
    }
  }

  lemma {:induction false} CompleteFrom(s: string)
    ensures Run(Complete, s) == Complete <==> AllPlain(s)
  {
    if s != [] {
      CompleteFrom(s[1..]);
      if !Plain(s[0]) {
        RejectedAbsorbs(s[1..]);
      }
    }
  }

  lemma {:induction false} DotFrom(s: string)
    ensures Run(Dot, s) == Complete <==> s != [] && AllPlain(s)
  {
    if s != [] {
      CompleteFrom(s[1..]);
      if !Plain(s[0]) {
        RejectedAbsorbs(s[1..]);
      }
    }
  }

  /** From `Domain`: everything left is plain and some '.' has a character after it. */
  ghost predicate DomainTail(s: string) {
    AllPlain(s) && exists k | 0 <= k < |s| - 1 :: s[k] == '.'
  }

  lemma {:induction false} DomainFrom(s: string)
    ensures Run(Domain, s) == Complete <==> DomainTail(s)
  {
    if s != [] {
      var t := s[1..];
      if s[0] == '.' {
        DotFrom(t);
        if t != [] && AllPlain(t) {
          assert s[0] == '.' && 0 < |s| - 1;
        }
        if DomainTail(s) {
          assert AllPlain(t);
        }
      } else if Plain(s[0]) {
        DomainFrom(t);
        if DomainTail(s) {
          var k :| 0 <= k < |s| - 1 && s[k] == '.';
          assert t[k - 1] == '.';
        }
        if DomainTail(t) {
          var k :| 0 <= k < |t| - 1 && t[k] == '.';
          assert s[k + 1] == '.';
        }
      } else {
        RejectedAbsorbs(t);
      }
    }
  }

  lemma {:induction false} AtSignFrom(s: string)
    ensures Run(AtSign, s) == Complete <==>
      s != [] && Plain(s[0]) && DomainTail(s[1..])
  {
    if s != [] {
      if Plain(s[0]) {
        DomainFrom(s[1..]);
      } else {
        RejectedAbsorbs(s[1..]);
      }
    }
  }

  /** From `Local`: a plain run, then '@', then what `AtSign` accepts. */
  ghost predicate LocalTail(s: string) {
    exists a | 0 <= a < |s| ::
      s[a] == '@' && AllPlain(s[..a]) && Run(AtSign, s[a + 1..]) == Complete
  }

  lemma {:induction false} LocalFrom(s: string)
    ensures Run(Local, s) == Complete <==> LocalTail(s)
  {
    if s != [] {
      var t := s[1..];
      assert Run(Local, s) == Run(Step(Local, s[0]), t);
      if s[0] == '@' {
        LocalTailAt(s);
      } else if Plain(s[0]) {
        LocalFrom(t);
        LocalTailPlain(s);
      } else {
        RejectedAbsorbs(t);
        LocalTailBad(s);
      }
    }
  }

  lemma LocalTailAt(s: string)
    requires s != [] && s[0] == '@'
    ensures LocalTail(s) <==> Run(AtSign, s[1..]) == Complete
  {
    if LocalTail(s) {
      var a :| 0 <= a < |s| && s[a] == '@' && AllPlain(s[..a]) && Run(AtSign, s[a + 1..]) == Complete;
    }
    assert s[..0] == [];
  }

  lemma LocalTailPlain(s: string)
    requires s != [] && Plain(s[0])
    ensures LocalTail(s) <==> LocalTail(s[1..])
  {
    if LocalTail(s) {
      var a :| 0 <= a < |s| && s[a] == '@' && AllPlain(s[..a]) && Run(AtSign, s[a + 1..]) == Complete;
      LocalTailDrop(s, a);
    }
    if LocalTail(s[1..]) {
      var t := s[1..];
      var a :| 0 <= a < |t| && t[a] == '@' && AllPlain(t[..a]) && Run(AtSign, t[a + 1..]) == Complete;
      LocalTailCons(s, a);
    }
  }

  /** The '@' at `a` of `s` is the '@' at `a - 1` of its tail. */
  lemma LocalTailDrop(s: string, a: int)
    requires 0 <= a < |s| && s[a] == '@' && AllPlain(s[..a]) && Run(AtSign, s[a + 1..]) == Complete
    requires Plain(s[0])
    ensures LocalTail(s[1..])
  {
    var t := s[1..];
    assert a > 0;
    assert t[a - 1] == '@' && t[a..] == s[a + 1..];
    var pre, full := t[..a - 1], s[..a];
    forall i | 0 <= i < |pre| ensures Plain(pre[i]) {
      assert pre[i] == full[i + 1];
    }
    assert 0 <= a - 1 < |t| && t[a - 1] == '@' && AllPlain(t[..a - 1]) && Run(AtSign, t[a - 1 + 1..]) == Complete;
  }

  /** The '@' at `a` of the tail is the '@' at `a + 1` of `s`. */
  lemma LocalTailCons(s: string, a: int)
    requires s != [] && Plain(s[0])
    requires 0 <= a < |s| - 1 && s[1..][a] == '@' && AllPlain(s[1..][..a]) && Run(AtSign, s[1..][a + 1..]) == Complete
    ensures LocalTail(s)
  {
    var t := s[1..];
    assert s[a + 1] == '@' && s[a + 2..] == t[a + 1..];
    var full, pre := s[..a + 1], t[..a];
    forall i | 0 <= i < |full| ensures Plain(full[i]) {
      if i > 0 {
        assert full[i] == pre[i - 1];
      }
    }
    assert 0 <= a + 1 < |s| && s[a + 1] == '@' && AllPlain(s[..a + 1]) && Run(AtSign, s[a + 1 + 1..]) == Complete;
  }

  lemma LocalTailBad(s: string)
    requires s != [] && !Plain(s[0]) && s[0] != '@'
    ensures !LocalTail(s)
  {
  }

  /** The matcher accepts exactly the strings of the pattern. */
  lemma ValidateEmailCorrect(s: string)
    ensures ValidateEmail(s) <==> IsEmailShape(s)
  {
    if s != [] {
      var t := s[1..];
      assert Run(Start, s) == Run(Step(Start, s[0]), t);
      if Plain(s[0]) {
        LocalFrom(t);
        if ValidateEmail(s) {
          AcceptedHasShape(s);
        }
        if IsEmailShape(s) {
          ShapeIsAccepted(s);
        }
      } else {
        RejectedAbsorbs(t);
      }
    }
  }

  lemma AcceptedHasShape(s: string)
    requires s != [] && Plain(s[0]) && LocalTail(s[1..])
    ensures IsEmailShape(s)
  {
    var t := s[1..];
    var a :| 0 <= a < |t| && t[a] == '@' && AllPlain(t[..a]) && Run(AtSign, t[a + 1..]) == Complete;
    var u := t[a + 1..];
    AtSignFrom(u);
    var w := u[1..];
    var k :| 0 <= k < |w| - 1 && w[k] == '.';
    assert t[..a] == s[1..a + 1] && u == s[a + 2..] && w == s[a + 3..];
    ShapeFromParts(s, a, k);
  }

  lemma ShapeFromParts(s: string, a: int, k: int)
    requires 0 <= a && a + 3 + k < |s| - 1 && 0 <= k
    requires Plain(s[0]) && AllPlain(s[1..a + 1]) && s[a + 1] == '@'
    requires Plain(s[a + 2]) && AllPlain(s[a + 3..]) && s[a + 3 + k] == '.'
    ensures IsEmailAt(s, a + 1, a + 3 + k)
  {
    var local, domain := s[..a + 1], s[a + 2..];
    forall i | 0 <= i < |local| ensures Plain(local[i]) {
      if i > 0 {
        assert local[i] == s[1..a + 1][i - 1];
      }
    }
    forall i | 0 <= i < |domain| ensures Plain(domain[i]) {
      if i > 0 {
        assert domain[i] == s[a + 3..][i - 1];
      }
    }
  }

  /** The body of `IsEmailShape` for one choice of the two positions. */
  ghost predicate IsEmailAt(s: string, a: int, d: int) {
    && 0 < a && a + 1 < d < |s| - 1
    && s[a] == '@' && s[d] == '.'
    && AllPlain(s[..a]) && AllPlain(s[a + 1..])
  }

  lemma ConsPlain(u: string)
    requires u != [] && Plain(u[0]) && AllPlain(u[1..])
    ensures AllPlain(u)
  {
    forall i | 0 <= i < |u| ensures Plain(u[i]) {
      if i > 0 {
        assert u[i] == u[1..][i - 1];
      }
    }
  }

  lemma ShapeIsAccepted(s: string)
    requires IsEmailShape(s)
    ensures LocalTail(s[1..])
  {
    var t := s[1..];
    var a, d :| IsEmailAt(s, a, d);
    var u := s[a + 1..];
    assert t[a - 1] == '@' && t[a..] == u;
    assert t[..a - 1] == s[1..a];
    assert AllPlain(t[..a - 1]);
    assert u[1..][d - a - 2] == '.';
    assert DomainTail(u[1..]);
    AtSignFrom(u);
  }

  /** `validatePhone`: exactly ten ASCII digits once white space is removed. */
  function ValidatePhone(phone: string): bool {
    var digits := StripSpaces(phone);
    |digits| == 10 && forall k | 0 <= k < |digits| :: '0' <= digits[k] <= '9'
  }

  /** White space inserted anywhere does not change the verdict. */
  lemma PhoneIgnoresSpaces(a: string, b: string, sp: string)
    requires AllSpaces(sp)
    ensures ValidatePhone(a + sp + b) == ValidatePhone(a + b)
  {
    StripSpacesAppend(a + sp, b);
    StripSpacesAppend(a, sp);
    StripSpacesAppend(a, b);
    StripSpacesAllSpaces(sp);
    assert StripSpaces(a + sp) == StripSpaces(a);
    assert StripSpaces(a + sp + b) == StripSpaces(a + b);
  }

  /** A valid phone has at least ten characters. */
  lemma PhoneLength(phone: string)
    requires ValidatePhone(phone)
    ensures |phone| >= 10
  {
  }

  /** On a string without white space the check is exactly "ten ASCII digits". */
  lemma PhoneShape(phone: string)
    requires NoSpaces(phone)
    ensures ValidatePhone(phone) <==>
      |phone| == 10 && forall k | 0 <= k < |phone| :: '0' <= phone[k] <= '9'
  {
    StripSpacesNoop(phone);
  }

  /** A sample address that the pattern accepts. */
  lemma EmailAccepted()
    ensures ValidateEmail("a@b.co")
  {
    var s := "a@b.co";
    ValidateEmailCorrect(s);
    assert s[..1] == "a" && s[2..] == "b.co";
    assert IsEmailAt(s, 1, 3);
  }

  /** A '.' directly after the '@' does not satisfy the pattern. */
  lemma EmailDotAfterAtRefused()
    ensures !ValidateEmail("a@.co")
  {
    var s := "a@.co";
    assert Run(Start, s) == Run(Local, s[1..]);
    assert Run(Local, s[1..]) == Run(AtSign, s[2..]);
    assert Run(AtSign, s[2..]) == Run(Domain, s[3..]);
    assert Run(Domain, s[3..]) == Run(Domain, s[4..]);
    assert Run(Domain, s[4..]) == Run(Domain, []);
  }
}
