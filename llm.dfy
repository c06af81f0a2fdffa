/** The chat-model client both the lookup agent and the summary chain build:
    `ChatOpenAI` pointed at the DeepSeek endpoint with deterministic sampling. */
module Llm {

  datatype ChatModel = ChatModel(temperature: int, modelName: string, apiBase: string, apiKey: string)

  const DeepSeekModelName := "deepseek-chat"
  const DeepSeekApiBase := "https://api.deepseek.com/v1"

  /** `ChatOpenAI(temperature=0, model_name="deepseek-chat",
      openai_api_base="https://api.deepseek.com/v1", openai_api_key=apiKey)`. */
  function DeepSeekChat(apiKey: string): ChatModel
  {
    ChatModel(0, DeepSeekModelName, DeepSeekApiBase, apiKey)
  }
}
