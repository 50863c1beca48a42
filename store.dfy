/**
 * The store (tenant storefront) record: its field validators, the storage quota
 * check and the choice of public URL.
 */
module StoreModel {
  import opened Common

  /** The store fields the model uses; sizes are bytes. */
  datatype Store = Store(
    owner: UserId,
    name: string,
    description: string,
    subdomain: string,
    customDomain: Option<string>,
    whatsappNumber: string,
    email: string,
    storageUsed: int,
    storageLimit: int,
    productLimit: int)

  const DefaultStorageUsed: int := 0
  const DefaultStorageLimit: int := 100 * 1024 * 1024
  const DefaultProductLimit: int := 50
  /** Domain used for subdomain URLs when `APP_DOMAIN` is unset or empty. */
  const DefaultAppDomain: string := "toko-digital.com"
  const MaxNameLength: nat := 50
  const MaxDescriptionLength: nat := 500

  predicate IsSubdomainChar(c: char)
  {
    IsLowerAlnum(c) || c == '-'
  }

  /** The subdomain pattern `^[a-z0-9-]+$`. */
  predicate IsValidSubdomain(s: string)
  {
    |s| > 0 && forall i :: 0 <= i < |s| ==> IsSubdomainChar(s[i])
  }

  /** The WhatsApp number pattern `^[0-9]{10,15}$`. */
  predicate IsValidWhatsApp(s: string)
  {
    10 <= |s| <= 15 && AllDigits(s)
  }

  /** The name is required and at most 50 characters, both judged after trimming. */
  predicate IsValidName(raw: string)
  {
    var t := Trim(raw);
    t != "" && |t| <= MaxNameLength
  }

  predicate IsValidDescription(d: string)
  {
    |d| <= MaxDescriptionLength
  }

  /**
   * Schema validation of a store as it is created: the name (after its trim setter),
   * the subdomain (after its lowercase setter) and the WhatsApp number.
   */
  predicate PassesValidation(name: string, subdomain: string, whatsapp: string)
  {
    IsValidName(name) && IsValidSubdomain(ToLower(subdomain)) && IsValidWhatsApp(whatsapp)
  }

  /** A store as `Store.create` stores it: setters applied, quota fields at their defaults. */
  function NewStore(owner: UserId, name: string, subdomain: string, whatsapp: string, email: string): (s: Store)
    ensures s.owner == owner && s.whatsappNumber == whatsapp && s.email == ToLower(email)
    ensures s.name == Trim(name) && s.subdomain == ToLower(subdomain)
    ensures s.storageUsed == 0 && s.storageLimit == 104857600 && s.productLimit == 50
    ensures s.customDomain.None? && s.description == ""
  {
    Store(owner, Trim(name), "", ToLower(subdomain), None, whatsapp, ToLower(email),
          DefaultStorageUsed, DefaultStorageLimit, DefaultProductLimit)
  }

  /** `canUploadFile(fileSize)`. */
  predicate CanUploadFile(s: Store, fileSize: int)
  {
    s.storageUsed + fileSize <= s.storageLimit
  }

  /** `getPublicUrl()`, with `APP_DOMAIN` passed in (`""` when unset). */
  function PublicUrl(s: Store, appDomain: string): (url: string)
    ensures StartsWith(url, Scheme)
  {
    if Truthy(s.customDomain) then Scheme + s.customDomain.value
    else Scheme + s.subdomain + "." + (if appDomain != "" then appDomain else DefaultAppDomain)
  }

  const Scheme: string := "https://"

  /** The host part of an `https://` URL. */
  function Host(url: string): string
    requires StartsWith(url, Scheme)
  {
    url[|Scheme|..]
  }

  /** The first label of a host name: everything before its first dot. */
  function FirstLabel(host: string): (r: string)
    ensures |r| <= |host| && r == host[..|r|]
    ensures forall i :: 0 <= i < |r| ==> r[i] != '.'
  {
    if host == [] || host[0] == '.' then [] else [host[0]] + FirstLabel(host[1..])
  }

  // ---------------------------------------------------------------- properties

  /**
   * A string of digits passes the WhatsApp pattern iff it has 10 to 15 of them; an
   * international `+` prefix is refused, as is any separator.
   */
  lemma WhatsAppPatternBounds(s: string, c: char)
    requires AllDigits(s) && !IsDigit(c)
    ensures IsValidWhatsApp(s) <==> 10 <= |s| <= 15
    ensures !IsValidWhatsApp([c] + s) && !IsValidWhatsApp(s + [c])
  {
    assert ([c] + s)[0] == c;
    assert (s + [c])[|s|] == c;
  }

  /** The quota admits a file iff it fits, so filling the quota exactly is allowed. */
  lemma UploadFitsExactly(s: Store, fileSize: int)
    ensures CanUploadFile(s, fileSize) <==> fileSize <= s.storageLimit - s.storageUsed
    ensures CanUploadFile(s, s.storageLimit - s.storageUsed)
    ensures CanUploadFile(s, fileSize) ==> forall smaller :: smaller <= fileSize ==> CanUploadFile(s, smaller)
  {
  }

  /** A new store can take files up to its whole 100 MiB default quota, and not a byte more. */
  lemma NewStoreQuota(owner: UserId, name: string, subdomain: string, whatsapp: string, email: string)
    ensures CanUploadFile(NewStore(owner, name, subdomain, whatsapp, email), 100 * 1024 * 1024)
    ensures !CanUploadFile(NewStore(owner, name, subdomain, whatsapp, email), 100 * 1024 * 1024 + 1)
  {
  }

  lemma {:induction false} FirstLabelOfLabel(head: string, rest: string)
    requires forall i :: 0 <= i < |head| ==> head[i] != '.'
    ensures FirstLabel(head + "." + rest) == head
  {
    if head != [] {
      assert (head + "." + rest)[1..] == head[1..] + "." + rest;
      FirstLabelOfLabel(head[1..], rest);
    }
  }

  /**
   * The public URL reads back: with a custom domain its host is that domain; otherwise
   * the first label of its host is the store's (valid) subdomain.
   */
  lemma {:induction false} PublicUrlReadsBack(s: Store, appDomain: string)
    ensures Truthy(s.customDomain) ==> Host(PublicUrl(s, appDomain)) == s.customDomain.value
    ensures !Truthy(s.customDomain) && IsValidSubdomain(s.subdomain) ==>
      FirstLabel(Host(PublicUrl(s, appDomain))) == s.subdomain
  {
    var url := PublicUrl(s, appDomain);
    if !Truthy(s.customDomain) && IsValidSubdomain(s.subdomain) {
      var domain := if appDomain != "" then appDomain else DefaultAppDomain;
      assert Host(url) == s.subdomain + "." + domain;
      FirstLabelOfLabel(s.subdomain, domain);
    }
  }

  /** Two stores without custom domains have the same public URL only if they share a subdomain. */
  lemma PublicUrlSeparatesSubdomains(s: Store, t: Store, appDomain: string)
    requires !Truthy(s.customDomain) && !Truthy(t.customDomain)
    requires IsValidSubdomain(s.subdomain) && IsValidSubdomain(t.subdomain)
    requires PublicUrl(s, appDomain) == PublicUrl(t, appDomain)
    ensures s.subdomain == t.subdomain
  {
    PublicUrlReadsBack(s, appDomain);
    PublicUrlReadsBack(t, appDomain);
  }

  /** The lowercase setter makes any mix of ASCII letters, digits and hyphens a valid subdomain. */
  lemma {:induction false} LowercasedSubdomain(s: string)
    requires |s| > 0
    requires forall i :: 0 <= i < |s| ==> IsSubdomainChar(s[i]) || 'A' <= s[i] <= 'Z'
    ensures IsValidSubdomain(ToLower(s))
  {
    var l := ToLower(s);
    forall i | 0 <= i < |l| ensures IsSubdomainChar(l[i]) {
      assert l[i] == ToLowerChar(s[i]);
    }
  }

  /** Surrounding whitespace does not count toward the 50-character name limit. */
  lemma {:induction false} PaddedNameStillValid(name: string)
    requires IsValidName(name)
    ensures IsValidName(" " + name + " ")
  {
    var padded := " " + name + " ";
    assert TrimStart(padded) == TrimStart(name + " ") by {
      assert padded[1..] == name + " ";
    }
    TrimStartAppend(name, " ");
    TrimEndAppendSpace(TrimStart(name));
  }

  lemma {:induction false} TrimStartAppend(s: string, t: string)
    requires TrimStart(s) != ""
    ensures TrimStart(s + t) == TrimStart(s) + t
  {
    if s != [] && IsSpace(s[0]) {
      assert (s + t)[1..] == s[1..] + t;
      TrimStartAppend(s[1..], t);
    }
  }

  lemma TrimEndAppendSpace(s: string)
    ensures TrimEnd(s + " ") == TrimEnd(s)
  {
    assert (s + " ")[..|s + " "| - 1] == s;
  }
}
