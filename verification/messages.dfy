/** The chat transcript's record: one entry of the component's message list. */
module Messages {
  import opened Wrappers

  datatype Role = User | Assistant

  /** A transcript entry. `thought` and `loading` are optional fields: an
      absent `thought` reads as "", an absent `loading` as false. */
  datatype Message = Message(
    id: string,
    role: Role,
    content: string,
    thought: Option<string>,
    loading: Option<bool>)

  /** `msg.thought || ''`. */
  function ThoughtOrEmpty(m: Message): string
  {
    m.thought.GetOr("")
  }

  /** `loading` under JavaScript truthiness. */
  predicate IsLoading(m: Message)
  {
    m.loading == Some(true)
  }

  /** The assistant's greeting the transcript starts with. */
  const Greeting: Message :=
    Message("1", Assistant,
      "你好！我是你的 AI 学习伙伴。我可以为你生成代码、数学公式，甚至绘制图表（通过图片链接）！",
      None, None)

  /** Some entry of `msgs` carries `id`. */
  predicate HasId(msgs: seq<Message>, id: string)
  {
    exists i :: 0 <= i < |msgs| && msgs[i].id == id
  }
}
