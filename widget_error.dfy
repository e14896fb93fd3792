/**
 * The props check of the chatbot widget (lib/utils/widget-error.tsx). The
 * props object is a dynamic value; its fields are read as JavaScript does.
 */
module WidgetError {
  import opened Common

  datatype PropsCheck = PropsCheck(valid: bool, error: Option<string>)

  const NoProps := "组件未接收到有效的参数"
  const MissingCompanyId := "缺少必需的参数: companyId"
  const MissingApiEndpoint := "缺少必需的参数: apiEndpoint"

  /** `validateChatbotWidgetProps(props)`: falsy props first, then companyId, then apiEndpoint. */
  function ValidateChatbotWidgetProps(props: Value): (r: PropsCheck)
    ensures r.valid <==> Truthy(props) && Truthy(Get(props, "companyId")) && Truthy(Get(props, "apiEndpoint"))
    ensures r.valid <==> r.error.None?
    ensures !Truthy(props) ==> r.error == Some(NoProps)
    ensures Truthy(props) && !Truthy(Get(props, "companyId")) ==> r.error == Some(MissingCompanyId)
    ensures Truthy(props) && Truthy(Get(props, "companyId")) && !Truthy(Get(props, "apiEndpoint")) ==>
      r.error == Some(MissingApiEndpoint)
  {
    if !Truthy(props) then PropsCheck(false, Some(NoProps))
    else if !Truthy(Get(props, "companyId")) then PropsCheck(false, Some(MissingCompanyId))
    else if !Truthy(Get(props, "apiEndpoint")) then PropsCheck(false, Some(MissingApiEndpoint))
    else PropsCheck(true, None)
  }

  /** The error names the first missing field: a props object lacking both reports companyId. */
  lemma ReportsFirstMissing(fields: map<string, Value>)
    requires "companyId" !in fields && "apiEndpoint" !in fields
    ensures ValidateChatbotWidgetProps(Obj(false, fields)).error == Some(MissingCompanyId)
  {
  }

  /** Null, undefined and the other falsy values are rejected before any field is read. */
  lemma FalsyPropsRejected(props: Value)
    requires props in {Undefined, Null, Bool(false), Num(0), Str("")}
    ensures ValidateChatbotWidgetProps(props) == PropsCheck(false, Some(NoProps))
  {
  }
}
