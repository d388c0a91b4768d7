/** Looking a "Service.Method" name up among the registered services. */
module Service {
  import opened Common

  type Registry = map<string, set<string>>

  /** Index of the last dot, or -1. */
  function LastDot(s: string): (i: int)
    ensures -1 <= i < |s|
    ensures 0 <= i ==> s[i] == '.'
    ensures forall j :: i < j < |s| ==> s[j] != '.'
  {
    if s == [] then -1 else if s[|s| - 1] == '.' then |s| - 1 else LastDot(s[..|s| - 1])
  }

  datatype LookupError = IllFormed | NoService(service: string) | NoMethod(name: string)

  function FindService(services: Registry, serviceMethod: string): Result<(string, string), LookupError> {
    var dot := LastDot(serviceMethod);
    if dot < 0 then Err(IllFormed)
    else
      var service, name := serviceMethod[..dot], serviceMethod[dot + 1..];
      if service !in services then Err(NoService(service))
      else if name !in services[service] then Err(NoMethod(name))
      else Ok((service, name))
  }

  const ILL_FORMED := "rpc服务器：service/method请求格式错误："
  const NO_SERVICE := "rpc服务器：找不到service"
  const NO_METHOD := "rpc服务器：找不到method"

  /** The error text for a name that is not found: it repeats the name, or its part. */
  function LookupText(services: Registry, serviceMethod: string): string {
    match FindService(services, serviceMethod)
    case Ok(_) => ""
    case Err(IllFormed) => ILL_FORMED + serviceMethod
    case Err(NoService(service)) => NO_SERVICE + service
    case Err(NoMethod(name)) => NO_METHOD + name
  }

  /** What the error text repeats of a name that is not found. */
  function Repeated(services: Registry, serviceMethod: string): string {
    match FindService(services, serviceMethod)
    case Err(NoService(service)) => service
    case Err(NoMethod(name)) => name
    case _ => serviceMethod
  }

  lemma LookupTextSigns(services: Registry, serviceMethod: string)
    requires FindService(services, serviceMethod).Err?
    ensures LookupText(services, serviceMethod) != ""
    ensures '%' in LookupText(services, serviceMethod) <==> '%' in Repeated(services, serviceMethod)
  {
    assert '%' !in ILL_FORMED && '%' !in NO_SERVICE && '%' !in NO_METHOD;
  }

  lemma OnlyLastDot(s: string, i: nat)
    requires i < |s| && s[i] == '.' && forall j :: i < j < |s| ==> s[j] != '.'
    ensures LastDot(s) == i
  {
  }

  lemma NoDotBehind(before: string, name: string, j: nat)
    requires '.' !in name && |before| <= j < |before| + |name|
    ensures (before + name)[j] != '.'
  {
    assert (before + name)[j] == name[j - |before|] && name[j - |before|] in name;
  }

  lemma LastDotIs(service: string, name: string)
    requires '.' !in name
    ensures LastDot(service + "." + name) == |service|
  {
    var before := service + ".";
    forall j | |before| <= j < |before| + |name| ensures (before + name)[j] != '.' { NoDotBehind(before, name, j); }
    assert before[|service|] == '.';
    OnlyLastDot(before + name, |service|);
  }

  /** The three refusals: no dot in the name, an unknown service, an unknown method. */
  lemma {:induction false} RefusalSays(services: Registry, service: string, name: string)
    requires '.' !in name
    ensures LookupText(services, name) == "rpc服务器：service/method请求格式错误：" + name
    ensures var asked := service + "." + name;
      LookupText(services, asked) == if service !in services then "rpc服务器：找不到service" + service
                                     else if name !in services[service] then "rpc服务器：找不到method" + name
                                     else ""
  {
    assert LastDot(name) == -1;
    LastDotIs(service, name);
    var asked := service + "." + name;
    assert asked[..|service|] == service && asked[|service| + 1..] == name;
  }

  /** A name is found exactly when it is a registered service, a dot and one of its
      methods; the method part has no dot, the service part may. */
  lemma FoundIff(services: Registry, serviceMethod: string, service: string, name: string)
    ensures FindService(services, serviceMethod) == Ok((service, name)) <==>
            && serviceMethod == service + "." + name && '.' !in name
            && service in services && name in services[service]
  {
    var dot := LastDot(serviceMethod);
    if serviceMethod == service + "." + name && '.' !in name {
      assert serviceMethod[|service|] == '.';
      assert forall j :: |service| < j < |serviceMethod| ==> serviceMethod[j] == name[j - |service| - 1];
      assert dot == |service|;
      assert serviceMethod[..dot] == service && serviceMethod[dot + 1..] == name;
    }
    if 0 <= dot {
      assert serviceMethod == serviceMethod[..dot] + "." + serviceMethod[dot + 1..];
    }
  }
}
