/** The wrapper's table of hash-type names and hashcat mode codes, the
    fuzzy name-to-code lookup `find_code`, the code a launch passes after
    "-m", and the reverse lookup `str_from_code`. */
module HashTypes {
  import opened Common
  import opened PyValues

  /** `hash_type_dict`: hash-type name to mode code. Names are unique; codes
      are not (several names share "400", "500", "1500", ...). A map has no
      order, so the entries the lemmas below look up are listed last. */
  const HashTypeDict: map<string, string> :=
    map[
      "md5($pass.$salt)" := "10",
      "md5($salt.$pass)" := "20",
      "md5(unicode($pass).$salt)" := "30",
      "md5($salt.unicode($pass))" := "40",
      "HMAC-MD5 (key = $pass)" := "50",
      "HMAC-MD5 (key = $salt)" := "60",
      "SHA1" := "100",
      "sha1($pass.$salt)" := "110",
      "sha1($salt.$pass)" := "120",
      "sha1(unicode($pass).$salt)" := "130",
      "sha1($salt.unicode($pass))" := "140",
      "HMAC-SHA1 (key = $pass)" := "150",
      "HMAC-SHA1 (key = $salt)" := "160",
      "sha1(LinkedIn)" := "190",
      "MySQL" := "300",
      "md5crypt" := "500",
      "MD5(Unix)" := "500",
      "FreeBSD MD5" := "500",
      "Cisco-IOS MD5" := "500",
      "MD4" := "900",
      "NTLM" := "1000",
      "Domain Cached Credentials:" := "1100",
      "mscash" := "1100",
      "SHA256" := "1400",
      "sha256($pass.$salt)" := "1410",
      "sha256($salt.$pass)" := "1420",
      "sha256(unicode($pass).$salt)" := "1430",
      "sha256($salt.unicode($pass))" := "1440",
      "HMAC-SHA256 (key = $pass)" := "1450",
      "HMAC-SHA256 (key = $salt)" := "1460",
      "descrypt" := "1500",
      "DES(Unix)" := "1500",
      "Traditional DES" := "1500",
      "md5apr1" := "1600",
      "MD5(APR)" := "1600",
      "Apache MD5" := "1600",
      "SHA512" := "1700",
      "sha512($pass.$salt)" := "1710",
      "sha512($salt.$pass)" := "1720",
      "sha512(unicode($pass).$salt)" := "1730",
      "sha512($salt.unicode($pass))" := "1740",
      "HMAC-SHA512 (key = $pass)" := "1750",
      "HMAC-SHA512 (key = $salt)" := "1760",
      "sha512crypt, SHA512(Unix)" := "1800",
      "Domain Cached Credentials2" := "2100",
      "mscash2" := "2100",
      "Cisco-PIX MD5" := "2400",
      "Cisco-ASA MD5" := "2410",
      "WPA/WPA2" := "2500",
      "Double MD5" := "2600",
      "LM" := "3000",
      "Oracle 7-10g" := "3100",
      "DES(Oracle)" := "3100",
      "bcrypt" := "3200",
      "Blowfish(OpenBSD)" := "3200",
      "md5(sha1($pass))" := "4400",
      "Double SHA1" := "4500",
      "sha1(md5($pass))" := "4700",
      "MD5(Chap)" := "4800",
      "iSCSI CHAP authentication" := "4800",
      "SHA-3(Keccak)" := "5000",
      "Half MD5" := "5100",
      "Password Safe SHA-256" := "5200",
      "IKE-PSK MD5" := "5300",
      "IKE-PSK SHA1" := "5400",
      "NetNTLMv1-VANILLA" := "5500",
      "NetNTLMv1+ESS" := "5500",
      "NetNTLMv2" := "5600",
      "Cisco-IOS SHA256" := "5700",
      "Samsung Android Password/PIN" := "5800",
      "RipeMD160" := "6000",
      "Whirlpool" := "6100",
      "TrueCrypt 5.0+ PBKDF2-HMAC-RipeMD160 (XTS AES)" := "6211",
      "TrueCrypt 5.0+ PBKDF2-HMAC-SHA512 (XTS AES)" := "6221",
      "TrueCrypt 5.0+ PBKDF2-HMAC-Whirlpool (XTS AES)" := "6231",
      "TrueCrypt 5.0+ PBKDF2-HMAC-RipeMD160 + boot-mode (XTS AES)" := "6241",
      "TrueCrypt 5.0+ PBKDF2-HMAC-RipeMD160 + hidden-volume (XTS AES)" := "6251",
      "TrueCrypt 5.0+ PBKDF2-HMAC-SHA512 + hidden-volume (XTS AES)" := "6261",
      "TrueCrypt 5.0+ PBKDF2-HMAC-Whirlpool + hidden-volume (XTS AES)" := "6271",
      "TrueCrypt 5.0+ PBKDF2-HMAC-RipeMD160 + hidden-volume + boot-mode (XTS AES)" := "6281",
      "AIX {smd5}" := "6300",
      "AIX {ssha256}" := "6400",
      "AIX {ssha512}" := "6500",
      "1Password, agilekeychain" := "6600",
      "AIX {ssha1}" := "6700",
      "Lastpass" := "6800",
      "GOST R 34.11-94" := "6900",
      "OSX v10.8 / v10.9" := "7100",
      "GRUB 2" := "7200",
      "IPMI2 RAKP HMAC-SHA1" := "7300",
      "sha256crypt" := "7400",
      "SHA256(Unix)" := "7400",
      "Kerberos 5 AS-REQ Pre-Auth etype 23" := "7500",
      "Redmine Project Management Web App" := "7600",
      "SAP CODVN B (BCODE)" := "7700",
      "SAP CODVN F/G (PASSCODE)" := "7800",
      "Drupal7" := "7900",
      "Sybase ASE" := "8000",
      "Citrix Netscaler" := "8100",
      "1Password, cloudkeychain" := "8200",
      "DNSSEC (NSEC3)" := "8300",
      "WBB3, Woltlab Burning Board 3" := "8400",
      "RACF" := "8500",
      "Joomla" := "11",
      "osCommerce, xt:Commerce" := "21",
      "nsldap, SHA-1(Base64), Netscape LDAP SHA" := "101",
      "nsldaps, SSHA-1(Base64), Netscape LDAP SSHA" := "111",
      "Oracle 11g" := "112",
      "SMF > v1.1" := "121",
      "OSX v10.4, v10.5, v10.6" := "122",
      "MSSQL(2000)" := "131",
      "MSSQL(2005)" := "132",
      "EPiServer 6.x < v4" := "141",
      "EPiServer 6.x > v4" := "1441",
      "SSHA-512(Base64), LDAP {SSHA512}" := "1711",
      "OSX v10.7" := "1722",
      "MSSQL(2012)" := "1731",
      "vBulletin < v3.8.5" := "2611",
      "vBulletin > v3.8.5" := "2711",
      "IPB2+, MyBB1.2+" := "2811",
      "MD5(phpBB3)" := "400",
      "MD5(Wordpress)" := "400",
      "phpass" := "400",
      "MD5" := "0"
    ]

  const Unknown: string := "UNKNOWN"

  /** Python's iteration over a dict: every key exactly once, in an order
      the program does not control. */
  ghost predicate IsIterationOrder(order: seq<string>, table: map<string, string>)
  {
    (forall i, j :: 0 <= i < j < |order| ==> order[i] != order[j])
    && (forall k :: k in table ==> k in order) && (forall k :: k in order ==> k in table)
  }

  /** Whether a key's code prints like the wanted one, ignoring case. */
  predicate CodeMatches(table: map<string, string>, key: string, want: string)
    requires key in table
  {
    Lower(table[key]) == want
  }

  /** The first key, in iteration order, whose code matches; "UNKNOWN" when
      none does. */
  function FirstWithCode(order: seq<string>, table: map<string, string>, want: string): string
    requires forall k :: k in order ==> k in table
  {
    if |order| == 0 then Unknown
    else if CodeMatches(table, order[0], want) then order[0]
    else FirstWithCode(order[1..], table, want)
  }

  /** The reverse lookup answers the first matching key and skips only keys
      that do not match; it answers "UNKNOWN" only when no key matches. */
  lemma {:induction false} FirstWithCodeSpec(order: seq<string>, table: map<string, string>, want: string)
    requires forall k :: k in order ==> k in table
    ensures var r := FirstWithCode(order, table, want);
      (r == Unknown && forall k :: k in order ==> !CodeMatches(table, k, want))
      || (exists i :: 0 <= i < |order| && order[i] == r && CodeMatches(table, r, want)
            && forall j :: 0 <= j < i ==> !CodeMatches(table, order[j], want))
  {
    if |order| > 0 && !CodeMatches(table, order[0], want) {
      var rest := order[1..];
      FirstWithCodeSpec(rest, table, want);
      var r := FirstWithCode(rest, table, want);
      if r == Unknown && forall k :: k in rest ==> !CodeMatches(table, k, want) {
        assert forall k :: k in order ==> k == order[0] || k in rest;
      } else {
        var i :| 0 <= i < |rest| && rest[i] == r && CodeMatches(table, r, want)
          && forall j :: 0 <= j < i ==> !CodeMatches(table, rest[j], want);
        assert order[i + 1] == r;
        forall j | 0 <= j < i + 1
          ensures !CodeMatches(table, order[j], want)
        {
          if j > 0 {
            assert order[j] == rest[j - 1];
          }
        }
      }
    } else if |order| > 0 {
      assert order[0] == FirstWithCode(order, table, want);
    }
  }

  /** When at most one key carries the code, iteration order does not
      matter: every order gives the same answer. */
  lemma UniqueCodeOrderFree(o1: seq<string>, o2: seq<string>, table: map<string, string>, want: string)
    requires IsIterationOrder(o1, table) && IsIterationOrder(o2, table)
    requires forall k1, k2 :: k1 in table && k2 in table && CodeMatches(table, k1, want) && CodeMatches(table, k2, want) ==> k1 == k2
    ensures FirstWithCode(o1, table, want) == FirstWithCode(o2, table, want)
  {
    FirstWithCodeSpec(o1, table, want);
    FirstWithCodeSpec(o2, table, want);
  }

  /** `str_from_code(code)` over the dict `table`: walk it and return the first name whose
      code, as a lower-cased string, equals `str(code).lower()`. */
  method StrFromCode(table: map<string, string>, code: PyValue, order: seq<string>) returns (name: string)
    requires IsIterationOrder(order, table)
    ensures name == FirstWithCode(order, table, Lower(Str(code)))
  {
    var want := Lower(Str(code));
    var i := 0;
    while i < |order|
      invariant 0 <= i <= |order|
      invariant FirstWithCode(order[i..], table, want) == FirstWithCode(order, table, want)
    {
      var key := order[i];
      if want == Lower(table[key]) {
        return key;
      }
      assert order[i..][1..] == order[i + 1..];
      i := i + 1;
    }
    return Unknown;
  }

  /** `find_code()` over the dict `table`: the code of the first close
      match difflib proposes. `matches` is difflib's answer, None when it
      raised; an empty answer or a failed lookup falls back to the integer 0. */
  function FindCode(table: map<string, string>, matches: Option<seq<string>>): (r: PyValue)
    ensures r == VInt(0) || (r.VStr? && r.s in table.Values)
    ensures r.VStr? <==> matches.Some? && |matches.value| > 0 && matches.value[0] in table
  {
    if matches.None? || |matches.value| == 0 || matches.value[0] !in table then VInt(0)
    else VStr(table[matches.value[0]])
  }

  /** Python's `x in table.values()`, which compares with `==`. */
  predicate InValues(table: map<string, string>, x: PyValue)
  {
    exists v :: v in table.Values && PyEq(x, VStr(v))
  }

  /** Only a string equal to a code is among the values: the int 400 is not. */
  lemma InValuesIff(table: map<string, string>, x: PyValue)
    ensures InValues(table, x) <==> x.VStr? && x.s in table.Values
  {
    if x.VStr? && x.s in table.Values {
      assert PyEq(x, VStr(x.s));
    }
  }

  /** The code an attack method passes: `hash_type` itself when it is one
      of the codes, else what `find_code()` makes of it. */
  function HashCode(table: map<string, string>, hashType: PyValue, matches: Option<seq<string>>): PyValue
  {
    if InValues(table, hashType) then hashType else FindCode(table, matches)
  }

  /** The token after "-m" is always one of the table's codes, provided the
      fallback 0 is one: a failed lookup yields the integer 0. */
  lemma ModeTokenIsKnownCode(table: map<string, string>, hashType: PyValue, matches: Option<seq<string>>)
    requires "0" in table.Values
    ensures Str(HashCode(table, hashType, matches)) in table.Values
  {
    InValuesIff(table, hashType);
    assert IntToString(0) == "0";
  }

  /** In `hash_type_dict` the fallback 0 is the code of MD5, so it is one
      of the codes. */
  lemma FallbackIsMD5()
    ensures "MD5" in HashTypeDict && HashTypeDict["MD5"] == "0" && "0" in HashTypeDict.Values
  {
  }

  /** In `hash_type_dict`, "phpass" and "MD5(Wordpress)" share the code 400. */
  lemma PhpassAndWordpressShare400()
    ensures "phpass" in HashTypeDict && HashTypeDict["phpass"] == "400"
    ensures "MD5(Wordpress)" in HashTypeDict && HashTypeDict["MD5(Wordpress)"] == "400"
  {
  }

  /** Where several names share a code the answer depends on the dict's
      iteration order: in a table where "phpass" and "MD5(Wordpress)" both
      have code 400, as in `hash_type_dict`, looking up 400 answers
      whichever of the two the walk meets first. */
  lemma SharedCodeDependsOnOrder(table: map<string, string>, o1: seq<string>, o2: seq<string>)
    requires "phpass" in table && table["phpass"] == "400"
    requires "MD5(Wordpress)" in table && table["MD5(Wordpress)"] == "400"
    requires IsIterationOrder(o1, table) && IsIterationOrder(o2, table)
    requires |o1| > 0 && o1[0] == "phpass"
    requires |o2| > 0 && o2[0] == "MD5(Wordpress)"
    ensures FirstWithCode(o1, table, Lower(Str(VInt(400)))) == "phpass"
    ensures FirstWithCode(o2, table, Lower(Str(VInt(400)))) == "MD5(Wordpress)"
  {
    PrintedCode400();
    assert CodeMatches(table, "phpass", "400");
    assert CodeMatches(table, "MD5(Wordpress)", "400");
  }

  lemma PrintedCode400()
    ensures Lower(Str(VInt(400))) == "400"
  {
    assert NatToString(4) == "4";
    assert NatToString(40) == "40";
    assert NatToString(400) == "400";
    assert Lower("400") == "400";
  }
}
