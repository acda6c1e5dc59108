/**
 * The `Cookie` request header: assembled from the solved challenge cookies
 * into the module-level headers object, and read back by a reference parser
 * that shows the header determines the cookies it was built from.
 */
module Cookies {
  import opened Wrappers
  import opened AssocList
  import opened Html

  /** The cookies the challenge solver returns, in its property order. */
  function SolverCookies(jslc: string, fingerprint: string): Dict<string>
  {
    [("octofence_jslc", jslc), ("octofence_jslc_fp", fingerprint)]
  }

  /** One `name=value;` pair. */
  function Pair(name: string, value: string): string
  {
    name + "=" + value + ";"
  }

  /** The in-order concatenation of the pairs of `cookies`. */
  function CookieHeader(cookies: Dict<string>): string
  {
    if cookies == [] then "" else Pair(cookies[0].0, cookies[0].1) + CookieHeader(cookies[1..])
  }

  lemma {:induction false} CookieHeaderAppend(a: Dict<string>, b: Dict<string>)
    ensures CookieHeader(a + b) == CookieHeader(a) + CookieHeader(b)
  {
    if a == [] {
      assert a + b == b;
    } else {
      assert (a + b)[0] == a[0];
      assert (a + b)[1..] == a[1..] + b;
      CookieHeaderAppend(a[1..], b);
    }
  }

  /** The module-level request headers; only the `Cookie` entry ever changes. */
  class Headers {
    /** `headers.Cookie`: absent until the first run assigns it. */
    var cookie: Option<string>

    constructor ()
      ensures cookie == None
    {
      cookie := None;
    }

    /** Reset `headers.Cookie` to the empty string, then append `name=value;` for every cookie. */
    method InstallCookies(cookies: Dict<string>)
      modifies this
      ensures cookie == Some(CookieHeader(cookies))
    {
      cookie := Some("");
      var i := 0;
      while i < |cookies|
        invariant 0 <= i <= |cookies|
        invariant cookie == Some(CookieHeader(cookies[..i]))
        decreases |cookies| - i
      {
        var pair := Pair(cookies[i].0, cookies[i].1);
        CookieHeaderAppend(cookies[..i], [cookies[i]]);
        assert cookies[..i + 1] == cookies[..i] + [cookies[i]];
        assert [cookies[i]][1..] == [];
        assert CookieHeader([cookies[i]]) == pair + "" == pair;
        cookie := Some(cookie.value + Pair(cookies[i].0, cookies[i].1));
        i := i + 1;
      }
      assert cookies[..i] == cookies;
    }
  }

  /** With the solver's two cookies the header is exactly these two pairs. */
  lemma SolverCookieHeader(jslc: string, fingerprint: string)
    ensures CookieHeader(SolverCookies(jslc, fingerprint))
      == "octofence_jslc=" + jslc + ";" + "octofence_jslc_fp=" + fingerprint + ";"
  {
    var cs := SolverCookies(jslc, fingerprint);
    assert cs[1..][1..] == [];
    assert CookieHeader(cs[1..]) == Pair("octofence_jslc_fp", fingerprint) + "";
    assert CookieHeader(cs) == Pair("octofence_jslc", jslc) + CookieHeader(cs[1..]);
  }

  // ---------------------------------------------------------------------
  // Reading a header back.

  /** Split a header at each `;` into pairs, each at its first `=`. */
  function ParseCookieHeader(h: string): Option<Dict<string>>
    decreases |h|
  {
    if h == [] then Some([])
    else
      var i := IndexOf(h, ';');
      if i == |h| then None
      else
        var pair := h[..i];
        var j := IndexOf(pair, '=');
        if j == |pair| then None
        else
          match ParseCookieHeader(h[i + 1..])
          case None => None
          case Some(rest) => Some([(pair[..j], pair[j + 1..])] + rest)
  }

  /** Names hold neither `=` nor `;`, values hold no `;`. */
  predicate Separable(cookies: Dict<string>)
  {
    forall p :: p in cookies ==> '=' !in p.0 && ';' !in p.0 && ';' !in p.1
  }

  /** The header determines the cookies: every pair, in order, and nothing else. */
  lemma {:induction false} ParseCookieHeaderRoundTrip(cookies: Dict<string>)
    requires Separable(cookies)
    ensures ParseCookieHeader(CookieHeader(cookies)) == Some(cookies)
  {
    if cookies != [] {
      var name, value := cookies[0].0, cookies[0].1;
      var rest := CookieHeader(cookies[1..]);
      var pair := name + "=" + value;
      var h := CookieHeader(cookies);
      assert h == pair + [';'] + rest;
      assert ';' !in pair;
      IndexOfAfter(pair, ';', rest);
      assert h[..|pair|] == pair;
      assert h[|pair| + 1..] == rest;
      assert pair == name + ['='] + value;
      IndexOfAfter(name, '=', value);
      assert pair[..|name|] == name && pair[|name| + 1..] == value;
      assert Separable(cookies[1..]);
      ParseCookieHeaderRoundTrip(cookies[1..]);
      assert cookies == [(name, value)] + cookies[1..];
    }
  }
}
