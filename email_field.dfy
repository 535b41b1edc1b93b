/**
 * The browser's check of an `<input type="email">` field before its form is
 * submitted. The Input component (components/Input.tsx) forwards `type`
 * to the `<input>`; the sign-in form has no `noValidate`, so a non-empty value
 * that is not a valid e-mail address blocks the submission and
 * `handleSubmit` never runs. The field is not `required`, so the empty value
 * passes.
 *
 * "Valid e-mail address" follows the HTML Living Standard, section 4.10.5.1.5
 * (the Email state): one or more local-part characters (letters, digits,
 * `.` and the RFC 5322 atext symbols), an `@`, then one or more dot-separated
 * labels of 1 to 63 letters, digits or hyphens that start and end with a
 * letter or digit.
 */
module EmailField {

  predicate IsLetDig(c: char)
  {
    'a' <= c <= 'z' || 'A' <= c <= 'Z' || '0' <= c <= '9'
  }

  /** A character allowed before the `@`. */
  predicate IsLocalChar(c: char)
  {
    IsLetDig(c) || c in "!#$%&'*+-/=?^_`{|}~."
  }

  /** One domain label. */
  predicate IsLabel(s: string)
  {
    1 <= |s| <= 63 && IsLetDig(s[0]) && IsLetDig(s[|s| - 1]) &&
    forall i :: 0 <= i < |s| ==> IsLetDig(s[i]) || s[i] == '-'
  }

  /** The position of the first `c` in `s`. */
  function IndexOf(s: string, c: char): (k: nat)
    requires c in s
    ensures k < |s| && s[k] == c
    ensures c !in s[..k]
  {
    if s[0] == c then 0
    else
      var k := IndexOf(s[1..], c) + 1;
      assert s[..k] == [s[0]] + s[1..][..k - 1];
      k
  }

  /** One or more labels separated by single dots. */
  predicate IsDomain(s: string)
    decreases |s|
  {
    if '.' in s then
      var k := IndexOf(s, '.');
      IsLabel(s[..k]) && IsDomain(s[k + 1..])
    else
      IsLabel(s)
  }

  /** A valid e-mail address: local part, `@`, domain. */
  predicate IsValidAddress(s: string)
  {
    '@' in s &&
    var k := IndexOf(s, '@');
    k > 0 && (forall i :: 0 <= i < k ==> IsLocalChar(s[i])) && IsDomain(s[k + 1..])
  }

  /** The browser lets the form be submitted with this field value. */
  predicate Accepts(value: string)
  {
    value == "" || IsValidAddress(value)
  }

  /** A domain holds no `@`. */
  lemma {:induction false} DomainHasNoAt(s: string)
    requires IsDomain(s)
    ensures '@' !in s
    decreases |s|
  {
    if '.' in s {
      var k := IndexOf(s, '.');
      DomainHasNoAt(s[k + 1..]);
      assert s == s[..k] + [s[k]] + s[k + 1..];
    }
  }

  /** A valid address holds exactly one `@`: the one after its non-empty local part. */
  lemma SingleAt(s: string)
    requires IsValidAddress(s)
    ensures var k := IndexOf(s, '@'); 0 < k && '@' !in s[..k] && '@' !in s[k + 1..]
  {
    DomainHasNoAt(s[IndexOf(s, '@') + 1..]);
  }

  /** Every accepted value other than the empty one contains an `@`. */
  lemma AcceptedHasAt(value: string)
    requires Accepts(value)
    ensures value != "" <==> '@' in value
  {
  }

  /** A local part, an `@` and a single label make a valid address. */
  lemma LocalAtLabel(local: string, domain: string)
    requires local != [] && forall i :: 0 <= i < |local| ==> IsLocalChar(local[i])
    requires IsLabel(domain)
    ensures IsValidAddress(local + "@" + domain)
  {
    var s := local + "@" + domain;
    assert '@' !in local by {
      forall i | 0 <= i < |local| ensures local[i] != '@' {
        assert IsLocalChar(local[i]);
      }
    }
    assert s[|local|] == '@';
    var k := IndexOf(s, '@');
    assert k == |local|;
    assert s[k + 1..] == domain;
    assert '.' !in domain by {
      forall i | 0 <= i < |domain| ensures domain[i] != '.' {
        assert IsLetDig(domain[i]) || domain[i] == '-';
      }
    }
  }

  /** Values the browser stops, and values it lets through. */
  lemma Examples()
    ensures !Accepts("@") && !Accepts("a@") && !Accepts("abc")
    ensures Accepts("") && Accepts("me@example")
  {
    assert IndexOf("@", '@') == 0;
    assert IndexOf("a@", '@') == 1;
    assert !IsDomain("");
    LocalAtLabel("me", "example");
    assert "me" + "@" + "example" == "me@example";
  }
}
