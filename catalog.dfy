/**
 * The closed enumerations shared by validation, storage and the dashboard
 * (apps/api/src/common/constants/catalog.constants.ts).
 *
 * The source declares each as a constant tuple of strings and derives a
 * union type from it.  Here each list is a `seq<string>`, the derived type
 * is a datatype, and `...Name` / `Parse...` translate between the two.
 */
module Catalog {
  import opened Wrappers
  import opened Seqs

  /** SERVICE_STATUSES, in declaration order. */
  const ServiceStatusNames: seq<string> := ["active", "paused", "deprecated"]
  /** HTTP_METHODS, in declaration order. */
  const HttpMethodNames: seq<string> := ["GET", "POST", "PUT", "DELETE"]
  /** AUTH_TYPES, in declaration order. */
  const AuthTypeNames: seq<string> := ["public", "apiKey", "jwt"]

  datatype ServiceStatus = Active | Paused | Deprecated
  datatype HttpMethod = Get | Post | Put | Delete
  datatype AuthType = Public | ApiKey | Jwt

  /** The members of each derived type, in the order of their list. */
  const ServiceStatuses: seq<ServiceStatus> := [Active, Paused, Deprecated]
  const HttpMethods: seq<HttpMethod> := [Get, Post, Put, Delete]
  const AuthTypes: seq<AuthType> := [Public, ApiKey, Jwt]

  function StatusName(s: ServiceStatus): (n: string)
    ensures n in ServiceStatusNames
  {
    match s
    case Active => "active"
    case Paused => "paused"
    case Deprecated => "deprecated"
  }

  function MethodName(m: HttpMethod): (n: string)
    ensures n in HttpMethodNames
  {
    match m
    case Get => "GET"
    case Post => "POST"
    case Put => "PUT"
    case Delete => "DELETE"
  }

  function AuthTypeName(a: AuthType): (n: string)
    ensures n in AuthTypeNames
  {
    match a
    case Public => "public"
    case ApiKey => "apiKey"
    case Jwt => "jwt"
  }

  /** The status a string denotes, if it is one of SERVICE_STATUSES. */
  function ParseStatus(n: string): (r: Option<ServiceStatus>)
    ensures r.Some? <==> n in ServiceStatusNames
    ensures r.Some? ==> StatusName(r.value) == n
  {
    if n == "active" then Some(Active)
    else if n == "paused" then Some(Paused)
    else if n == "deprecated" then Some(Deprecated)
    else None
  }

  /** The method a string denotes, if it is one of HTTP_METHODS. */
  function ParseMethod(n: string): (r: Option<HttpMethod>)
    ensures r.Some? <==> n in HttpMethodNames
    ensures r.Some? ==> MethodName(r.value) == n
  {
    if n == "GET" then Some(Get)
    else if n == "POST" then Some(Post)
    else if n == "PUT" then Some(Put)
    else if n == "DELETE" then Some(Delete)
    else None
  }

  /** The auth type a string denotes, if it is one of AUTH_TYPES. */
  function ParseAuthType(n: string): (r: Option<AuthType>)
    ensures r.Some? <==> n in AuthTypeNames
    ensures r.Some? ==> AuthTypeName(r.value) == n
  {
    if n == "public" then Some(Public)
    else if n == "apiKey" then Some(ApiKey)
    else if n == "jwt" then Some(Jwt)
    else None
  }

  /** Naming a member and parsing the name back gives the member. */
  lemma NamesRoundTrip(s: ServiceStatus, m: HttpMethod, a: AuthType)
    ensures ParseStatus(StatusName(s)) == Some(s)
    ensures ParseMethod(MethodName(m)) == Some(m)
    ensures ParseAuthType(AuthTypeName(a)) == Some(a)
  {
  }

  /**
   * Each list has pairwise distinct entries, it is the list of names of
   * the derived type's members in the same order, and every member of the
   * derived type is in it.
   */
  lemma ListsDefineTypes()
    ensures Distinct(ServiceStatusNames) && Distinct(HttpMethodNames) && Distinct(AuthTypeNames)
    ensures |ServiceStatuses| == |ServiceStatusNames| == 3
    ensures forall i :: 0 <= i < 3 ==> StatusName(ServiceStatuses[i]) == ServiceStatusNames[i]
    ensures |HttpMethods| == |HttpMethodNames| == 4
    ensures forall i :: 0 <= i < 4 ==> MethodName(HttpMethods[i]) == HttpMethodNames[i]
    ensures |AuthTypes| == |AuthTypeNames| == 3
    ensures forall i :: 0 <= i < 3 ==> AuthTypeName(AuthTypes[i]) == AuthTypeNames[i]
    ensures forall s: ServiceStatus :: s in ServiceStatuses
    ensures forall m: HttpMethod :: m in HttpMethods
    ensures forall a: AuthType :: a in AuthTypes
  {
    forall s: ServiceStatus ensures s in ServiceStatuses {
      match s
      case Active => assert ServiceStatuses[0] == s;
      case Paused => assert ServiceStatuses[1] == s;
      case Deprecated => assert ServiceStatuses[2] == s;
    }
    forall m: HttpMethod ensures m in HttpMethods {
      match m
      case Get => assert HttpMethods[0] == m;
      case Post => assert HttpMethods[1] == m;
      case Put => assert HttpMethods[2] == m;
      case Delete => assert HttpMethods[3] == m;
    }
    forall a: AuthType ensures a in AuthTypes {
      match a
      case Public => assert AuthTypes[0] == a;
      case ApiKey => assert AuthTypes[1] == a;
      case Jwt => assert AuthTypes[2] == a;
    }
  }
}
