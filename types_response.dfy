/** The response-generation records of src/types/response.ts. */
module ResponseTypes {
  import opened Common

  datatype ResponseStyle = Official | Friendly | Technical
  {
    function Name(): string {
      match this
      case Official => "official"
      case Friendly => "friendly"
      case Technical => "technical"
    }
  }

  datatype ResponseLanguage = En | Uk
  {
    function Name(): string {
      match this
      case En => "en"
      case Uk => "uk"
    }
  }

  datatype FAQLink = FAQLink(title: string, url: string, relevance_score: real)

  datatype GeneratedResponse = GeneratedResponse(
    id: string,
    mention_id: string,
    style: ResponseStyle,
    language: ResponseLanguage,
    content: string,
    action_checklist: seq<string>,
    faq_links: seq<FAQLink>,
    created_at: string)

  datatype ResponseRequest = ResponseRequest(
    mention_id: string,
    mention_content: string,
    style: ResponseStyle,
    language: ResponseLanguage,
    custom_instructions: Option<string>)

  datatype ResponseHistory = ResponseHistory(
    id: string,
    mention_id: string,
    response_id: string,
    content: string,
    style: ResponseStyle,
    sent_at: string,
    sent_by: string,
    platform_response_id: Option<string>)
}
