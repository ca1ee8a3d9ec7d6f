/** The base URI a connection is built for. The connection keeps it in a
    normal form that always ends with a slash, so that endpoint names such
    as "negotiate" can be appended directly. */
module Uri {

  /** A stored URI: non-empty and terminated by '/'. */
  predicate IsNormalized(u: string)
  {
    |u| > 0 && u[|u| - 1] == '/'
  }

  /** The constructor's normalisation: append '/' unless the last character
      already is one. The caller must pass a non-empty string (Connection.cpp
      reads the last character unconditionally). */
  function Normalize(uri: string): (r: string)
    requires |uri| > 0
    ensures IsNormalized(r)
    ensures |uri| <= |r| <= |uri| + 1 && r[..|uri|] == uri
    ensures r == uri <==> IsNormalized(uri)
  {
    if uri[|uri| - 1] == '/' then uri else uri + "/"
  }

  /** Normalising twice is the same as normalising once. */
  lemma NormalizeIdempotent(uri: string)
    requires |uri| > 0
    ensures Normalize(Normalize(uri)) == Normalize(uri)
  {
  }

  /** Example: "http://host" is stored as "http://host/". */
  lemma NormalizeExample()
    ensures Normalize("http://host") == "http://host/"
    ensures Normalize("http://host/") == "http://host/"
  {
  }
}
