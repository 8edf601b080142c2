/** `POST /api/uploads/r2`: checks the request and the storage
    configuration, turns the file name into a safe object key, and answers
    with the key and its public URL. The clock and the random part of the
    key are parameters; presigning the upload URL is not modelled. */
module UploadRoute {
  import opened Common

  /** `requireEnv`: the variable's value, or the error it throws. */
  datatype Required = Missing(message: string) | Value(value: string)

  function RequireEnv(v: Option<string>, name: string): (r: Required)
    ensures r.Missing? <==> !Truthy(v)
    ensures r.Missing? ==> r.message == "Missing " + name
    ensures r.Value? ==> r.value == v.value && r.value != ""
  {
    if !Truthy(v) then Missing("Missing " + name) else Value(v.value)
  }

  // ---------------------------------------------------------------------
  // The file name

  /** The characters kept as they are: ASCII letters, digits, '.', '_'
      and '-'. */
  predicate Allowed(c: char)
  {
    ('a' <= c <= 'z') || ('A' <= c <= 'Z') || ('0' <= c <= '9') || c == '.' || c == '_' || c == '-'
  }

  /** A character outside the Basic Multilingual Plane is two UTF-16 code
      units, each replaced on its own. */
  predicate Astral(c: char)
  {
    c as int >= 0x1_0000
  }

  /** `filename.replace(/[^a-zA-Z0-9._-]/g, "-")`: the pattern has no
      Unicode flag, so it works on UTF-16 code units. */
  function Sanitize(s: string): (r: string)
    ensures Utf16Length(r) == Utf16Length(s)
    ensures forall i :: 0 <= i < |r| ==> Allowed(r[i])
  {
    if |s| == 0 then ""
    else
      var head := if Allowed(s[0]) then [s[0]] else if Astral(s[0]) then "--" else "-";
      var r := head + Sanitize(s[1..]);
      assert r[..|head|] == head && r[|head|..] == Sanitize(s[1..]);
      Utf16LengthConcat(head, Sanitize(s[1..]));
      r
  }

  /** A name made only of allowed characters is kept as it is. */
  lemma {:induction false} SanitizeKeepsAllowed(s: string)
    requires forall i :: 0 <= i < |s| ==> Allowed(s[i])
    ensures Sanitize(s) == s
  {
    if |s| > 0 {
      SanitizeKeepsAllowed(s[1..]);
    }
  }

  /** Sanitising twice is sanitising once. */
  lemma SanitizeIdempotent(s: string)
    ensures Sanitize(Sanitize(s)) == Sanitize(s)
  {
    SanitizeKeepsAllowed(Sanitize(s));
  }

  /** Without astral characters the name keeps its length, every allowed
      character keeps its place, and every other one becomes '-'. */
  lemma {:induction false} SanitizeInPlace(s: string)
    requires forall i :: 0 <= i < |s| ==> !Astral(s[i])
    ensures |Sanitize(s)| == |s|
    ensures forall i :: 0 <= i < |s| ==> Sanitize(s)[i] == if Allowed(s[i]) then s[i] else '-'
  {
    if |s| > 0 {
      SanitizeInPlace(s[1..]);
      assert forall i :: 1 <= i < |s| ==> Sanitize(s)[i] == Sanitize(s[1..])[i - 1];
    }
  }

  // ---------------------------------------------------------------------
  // The key and the public URL

  /** `uploads/<now>-<random>-<safe name>`. */
  function ObjectKey(now: nat, random: string, safeName: string): (k: string)
    ensures StartsWith(k, "uploads/")
    ensures |k| >= |safeName| + 1 && k[|k| - |safeName| - 1..] == "-" + safeName
  {
    var k := "uploads/" + Decimal(now) + "-" + random + "-" + safeName;
    assert k[..8] == "uploads/";
    assert k == ("uploads/" + Decimal(now) + "-" + random) + ("-" + safeName);
    k
  }

  /** The base URL with one trailing '/' removed, then '/' and the key. */
  function PublicUrl(base: string, key: string): (u: string)
    ensures |base| > 0 && base[|base| - 1] == '/' ==> u == base[..|base| - 1] + "/" + key
    ensures !(|base| > 0 && base[|base| - 1] == '/') ==> u == base + "/" + key
  {
    var trimmed := if |base| > 0 && base[|base| - 1] == '/' then base[..|base| - 1] else base;
    trimmed + "/" + key
  }

  /** Only one slash is removed: a base ending in "//" keeps one of them. */
  lemma OnlyOneSlashRemoved(host: string, key: string)
    ensures PublicUrl(host + "//", key) == host + "/" + "/" + key
  {
    assert (host + "//")[..|host| + 1] == host + "/";
  }

  // ---------------------------------------------------------------------
  // The route

  /** The environment the route reads. */
  datatype Env = Env(accountId: Option<string>, accessKeyId: Option<string>, secretAccessKey: Option<string>,
                     bucket: Option<string>, publicUrl: Option<string>)

  datatype UploadReply =
    | BadRequest                                     // 400 "Missing filename or contentType"
    | Thrown(message: string)                        // a missing variable: the request fails
    | Ticket(bucket: string, contentType: string, publicUrl: string, key: string)

  /** The first missing variable in the order the route reads them. */
  function FirstMissing(env: Env): (m: Option<string>)
    ensures m.None? <==> Truthy(env.bucket) && Truthy(env.publicUrl) && Truthy(env.accountId)
                         && Truthy(env.accessKeyId) && Truthy(env.secretAccessKey)
    ensures !Truthy(env.bucket) ==> m == Some("Missing R2_BUCKET")
    ensures Truthy(env.bucket) && !Truthy(env.publicUrl) ==> m == Some("Missing R2_PUBLIC_URL")
  {
    if !Truthy(env.bucket) then Some("Missing R2_BUCKET")
    else if !Truthy(env.publicUrl) then Some("Missing R2_PUBLIC_URL")
    else if !Truthy(env.accountId) then Some("Missing R2_ACCOUNT_ID")
    else if !Truthy(env.accessKeyId) then Some("Missing R2_ACCESS_KEY_ID")
    else if !Truthy(env.secretAccessKey) then Some("Missing R2_SECRET_ACCESS_KEY")
    else None
  }

  /** `POST /api/uploads/r2`: a missing file name or content type is a 400
      before any variable is read; otherwise the first missing variable
      fails the request; otherwise the key and public URL are returned. */
  function Post(filename: Option<string>, contentType: Option<string>, env: Env, now: nat, random: string): (r: UploadReply)
    ensures r == BadRequest <==> !Truthy(filename) || !Truthy(contentType)
    ensures r.Thrown? <==> Truthy(filename) && Truthy(contentType) && FirstMissing(env).Some?
    ensures r.Thrown? ==> r.message == FirstMissing(env).value
    ensures r.Ticket? ==>
      && r.bucket == env.bucket.value && r.contentType == contentType.value
      && r.key == ObjectKey(now, random, Sanitize(filename.value))
      && r.publicUrl == PublicUrl(env.publicUrl.value, r.key)
  {
    if !Truthy(filename) || !Truthy(contentType) then BadRequest
    else
      match RequireEnv(env.bucket, "R2_BUCKET")
      case Missing(m) => Thrown(m)
      case Value(bucket) =>
        match RequireEnv(env.publicUrl, "R2_PUBLIC_URL")
        case Missing(m) => Thrown(m)
        case Value(base) =>
          var key := ObjectKey(now, random, Sanitize(filename.value));
          match FirstMissing(env)
          case Some(m) => Thrown(m)
          case None => Ticket(bucket, contentType.value, PublicUrl(base, key), key)
  }
}
