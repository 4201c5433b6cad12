/** The cross-origin allow-list of src/main.ts: the start-up check of the
    `CORS_ORIGIN_LIST` setting and the `origin` callback built from it.

    URL parsing (`new URL(..)`, the "URL parsing" section of the WHATWG URL
    Standard) is a parameter `isUrl`: every statement below holds for every
    parser. */
module CorsOrigins {
  import opened Wrappers
  import Strings

  const Wildcard: string := "*"
  const Separator: char := ','
  const OriginNotAllowed: string := "Origin not allowed"

  /** The two start-up failures. */
  datatype ConfigError = NotDefined | InvalidList

  function Message(e: ConfigError): string
  {
    match e
    case NotDefined => "CORS_ORIGIN_LIST is not defined or empty"
    case InvalidList => "Invalid CORS_ORIGIN_LIST"
  }

  /** The callback's answer: `callback(null, true)` or a ForbiddenException. */
  datatype Decision = Allow | Forbidden(message: string)

  /** `validateCorsOriginList`: `Array.prototype.every` over the elements, left
      to right, stopping at the first element the parser rejects. */
  function Every(list: seq<string>, isUrl: string -> bool): (b: bool)
    ensures b <==> forall i :: 0 <= i < |list| ==> isUrl(list[i])
    decreases |list|
  {
    if |list| == 0 then true
    else isUrl(list[0]) && Every(list[1..], isUrl)
  }

  /** The start-up check: split the setting on commas, fail when it is absent,
      skip URL validation when the first element is the wildcard, otherwise
      require every element to parse. */
  function ValidateList(raw: Option<string>, isUrl: string -> bool): (r: Result<seq<string>, ConfigError>)
    ensures r == Failure(NotDefined) <==> raw.None?
    ensures r.Success? ==> raw.Some? && |r.value| >= 1 && Strings.Join(r.value, Separator) == raw.value
    ensures r.Success? ==> forall i :: 0 <= i < |r.value| ==> Separator !in r.value[i]
    ensures r.Success? ==> r.value[0] == Wildcard || forall i :: 0 <= i < |r.value| ==> isUrl(r.value[i])
    ensures r == Failure(InvalidList) ==>
              raw.Some? && var list := Strings.Split(raw.value, Separator);
              list[0] != Wildcard && exists i :: 0 <= i < |list| && !isUrl(list[i])
  {
    match raw
    case None => Failure(NotDefined)
    case Some(s) =>
      var list := Strings.Split(s, Separator);
      Strings.JoinSplit(s, Separator);
      if |list| == 0 then Failure(NotDefined)
      else if list[0] != Wildcard && !Every(list, isUrl) then Failure(InvalidList)
      else Success(list)
  }

  /** `corsOriginList.includes(origin)`: a left-to-right scan with strict
      equality; an `undefined` origin matches no string. */
  function Includes(list: seq<string>, origin: Option<string>): (b: bool)
    ensures b <==> origin.Some? && origin.value in list
    decreases |list|
  {
    if |list| == 0 then false
    else Some(list[0]) == origin || Includes(list[1..], origin)
  }

  /** The `origin` callback. The browser's origin is `undefined` (`None`) for
      requests that carry no `Origin` header. */
  function AllowOrigin(list: seq<string>, origin: Option<string>): (d: Decision)
    ensures d == Allow <==> (origin.Some? && origin.value in list) || (|list| >= 1 && list[0] == Wildcard)
    ensures d != Allow ==> d == Forbidden(OriginNotAllowed)
  {
    if Includes(list, origin) || (|list| >= 1 && list[0] == Wildcard) then Allow
    else Forbidden(OriginNotAllowed)
  }

  /** The emptiness test can only fire for an absent setting: a present one,
      even the empty string, always splits into at least one element. */
  lemma PresentSettingNeverNotDefined(s: string, isUrl: string -> bool)
    ensures ValidateList(Some(s), isUrl) != Failure(NotDefined)
    ensures ValidateList(Some(""), isUrl) == (if isUrl("") then Success([""]) else Failure(InvalidList))
  {
  }

  /** A list whose first element is the wildcard is accepted as it stands,
      whatever the later elements are and whatever the URL parser says. */
  lemma WildcardSkipsValidation(rest: seq<string>, isUrl: string -> bool)
    requires forall i :: 0 <= i < |rest| ==> Separator !in rest[i]
    ensures ValidateList(Some(Strings.Join([Wildcard] + rest, Separator)), isUrl) == Success([Wildcard] + rest)
  {
    var list := [Wildcard] + rest;
    assert forall i :: 0 <= i < |list| ==> Separator !in list[i] by {
      forall i | 0 <= i < |list| ensures Separator !in list[i] {
        if i > 0 { assert list[i] == rest[i - 1]; }
      }
    }
    Strings.SplitJoin(list, Separator);
  }

  /** A list not led by the wildcard is accepted iff every element parses; a
      single failing element rejects all of it. */
  lemma NonWildcardNeedsEveryUrl(list: seq<string>, isUrl: string -> bool)
    requires |list| >= 1 && list[0] != Wildcard
    requires forall i :: 0 <= i < |list| ==> Separator !in list[i]
    ensures ValidateList(Some(Strings.Join(list, Separator)), isUrl) ==
              if forall i :: 0 <= i < |list| ==> isUrl(list[i]) then Success(list) else Failure(InvalidList)
  {
    Strings.SplitJoin(list, Separator);
  }

  /** The URL check is a universal statement over the elements: reordering or
      duplicating elements does not change its answer. */
  lemma EveryIgnoresOrderAndDuplicates(l1: seq<string>, l2: seq<string>, isUrl: string -> bool)
    requires forall x :: x in l1 <==> x in l2
    ensures Every(l1, isUrl) == Every(l2, isUrl)
  {
    if Every(l2, isUrl) {
      forall i | 0 <= i < |l1| ensures isUrl(l1[i]) {
        assert l1[i] in l2;
      }
    } else {
      var j :| 0 <= j < |l2| && !isUrl(l2[j]);
      assert l2[j] in l1;
    }
  }

  /** Matching is exact, and a wildcard anywhere but first is just the literal
      origin `*`: a list not led by the wildcard allows exactly its elements. */
  lemma ExactMatchUnlessLeadingWildcard(list: seq<string>, origin: string)
    requires |list| >= 1 && list[0] != Wildcard
    ensures AllowOrigin(list, Some(origin)) == Allow <==> origin in list
    ensures Wildcard in list ==> AllowOrigin(list, Some(Wildcard)) == Allow
    ensures AllowOrigin(list, None) == Forbidden(OriginNotAllowed)
  {
  }

  /** Under a list that passed start-up validation without the wildcard, every
      origin the callback allows is one the URL parser accepts. */
  lemma ValidatedAllowsOnlyParsableOrigins(raw: Option<string>, isUrl: string -> bool, origin: Option<string>)
    requires ValidateList(raw, isUrl).Success?
    requires ValidateList(raw, isUrl).value[0] != Wildcard
    requires AllowOrigin(ValidateList(raw, isUrl).value, origin) == Allow
    ensures origin.Some? && isUrl(origin.value)
  {
  }
}
