/** The `EmployeeIDType` constraint of models/employee.py: the pattern `^[A-Z]{2,3}\d{3,5}$`,
    with `\d` read as the ASCII digits and `$` as the end of the text. */
module EmployeeIdPattern {

  predicate IsUpper(c: char) { 'A' <= c <= 'Z' }

  predicate IsDigit(c: char) { '0' <= c <= '9' }

  predicate AllUpper(s: string) { forall i :: 0 <= i < |s| ==> IsUpper(s[i]) }

  predicate AllDigits(s: string) { forall i :: 0 <= i < |s| ==> IsDigit(s[i]) }

  /** The length of the longest prefix of `s` made of letters A-Z. */
  function LeadingUpper(s: string): (n: nat)
    ensures n <= |s|
    ensures AllUpper(s[..n])
    ensures n < |s| ==> !IsUpper(s[n])
  {
    if s != [] && IsUpper(s[0]) then
      var n := 1 + LeadingUpper(s[1..]);
      assert s[..n] == [s[0]] + s[1..][..n - 1];
      n
    else
      0
  }

  /** The validator: the run of capitals is 2 or 3 long, and what follows it is 3 to 5 digits. */
  predicate IsEmployeeId(s: string) {
    var k := LeadingUpper(s);
    2 <= k <= 3 && 3 <= |s| - k <= 5 && AllDigits(s[k..])
  }

  /** The pattern read literally: `s` splits into 2-3 capitals followed by 3-5 digits. */
  ghost predicate MatchesPattern(s: string) {
    exists k :: 2 <= k <= 3 && k <= |s| && AllUpper(s[..k]) && AllDigits(s[k..]) && 3 <= |s| - k <= 5
  }

  /** The validator accepts exactly the strings the pattern matches. */
  lemma IsEmployeeIdMatchesPattern(s: string)
    ensures IsEmployeeId(s) <==> MatchesPattern(s)
  {
    var n := LeadingUpper(s);
    if IsEmployeeId(s) {
      assert 2 <= n <= 3 && AllUpper(s[..n]) && AllDigits(s[n..]) && 3 <= |s| - n <= 5;
    }
    if MatchesPattern(s) {
      var k :| 2 <= k <= 3 && k <= |s| && AllUpper(s[..k]) && AllDigits(s[k..]) && 3 <= |s| - k <= 5;
      // s[k] is a digit, so the run of capitals is exactly the first k characters.
      assert IsDigit(s[k..][0]);
      LeadingUpperOf(s[..k], s[k..]);
      assert s[..k] + s[k..] == s;
    }
  }

  /** Any accepted identifier is 5 to 8 characters long, starts with a capital and ends with a digit. */
  lemma EmployeeIdShape(s: string)
    requires IsEmployeeId(s)
    ensures 5 <= |s| <= 8
    ensures IsUpper(s[0]) && IsDigit(s[|s| - 1])
  {
    var k := LeadingUpper(s);
    assert s[..k][0] == s[0];
    assert s[k..][|s| - k - 1] == s[|s| - 1];
  }

  /** A run of capitals followed by something that does not start with one is counted exactly. */
  lemma {:induction false} LeadingUpperOf(prefix: string, rest: string)
    requires AllUpper(prefix)
    requires rest == [] || !IsUpper(rest[0])
    ensures LeadingUpper(prefix + rest) == |prefix|
  {
    if prefix == [] {
      assert prefix + rest == rest;
    } else {
      assert (prefix + rest)[1..] == prefix[1..] + rest;
      LeadingUpperOf(prefix[1..], rest);
    }
  }

  /** Two or three capitals followed by three to five digits are accepted. */
  lemma Accepts(prefix: string, digits: string)
    requires 2 <= |prefix| <= 3 && AllUpper(prefix)
    requires 3 <= |digits| <= 5 && AllDigits(digits)
    ensures IsEmployeeId(prefix + digits)
  {
    LeadingUpperOf(prefix, digits);
    assert (prefix + digits)[|prefix|..] == digits;
  }

  /** The identifiers the type's own comment gives as examples are accepted. */
  lemma DocumentedExamplesAccepted()
    ensures IsEmployeeId("AD123") && IsEmployeeId("JDS45678")
  {
    Accepts("AD", "123");
    assert "AD" + "123" == "AD123";
    Accepts("JDS", "45678");
    assert "JDS" + "45678" == "JDS45678";
  }

  /** The identifier of the `EmployeeCreate` schema example is accepted. */
  lemma CreateExampleAccepted()
    ensures IsEmployeeId("JD567")
  {
    Accepts("JD", "567");
    assert "JD" + "567" == "JD567";
  }

  /** Near misses are rejected: too few or too many letters or digits, lower case, a trailing letter. */
  lemma NearMissesRejected()
    ensures !IsEmployeeId("A1234") && !IsEmployeeId("ABCD123") && !IsEmployeeId("ad123")
    ensures !IsEmployeeId("AD12") && !IsEmployeeId("AD123456") && !IsEmployeeId("AD12X")
  {
    LeadingUpperOf("A", "1234");
    assert "A" + "1234" == "A1234";
    LeadingUpperOf("ABCD", "123");
    assert "ABCD" + "123" == "ABCD123";
    LeadingUpperOf("", "ad123");
    assert "" + "ad123" == "ad123";
    LeadingUpperOf("AD", "12");
    assert "AD" + "12" == "AD12";
    LeadingUpperOf("AD", "123456");
    assert "AD" + "123456" == "AD123456";
    LeadingUpperOf("AD", "12X");
    assert "AD" + "12X" == "AD12X" && "AD12X"[2..][2] == 'X';
  }
}
