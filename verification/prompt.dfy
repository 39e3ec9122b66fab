/**
 * The prompt text of process.py: the evaluation standard with every space
 * removed, the fixed instruction that precedes it, and the single-quote to
 * double-quote rewriting applied to spreadsheet cells before they are parsed.
 * Python's `str.replace` with a one-character pattern is a character map, so
 * both rewritings are modelled as recursive functions over `string`.
 */
module Prompt {

  /** `s.replace(' ', '')`: the characters of `s` without its spaces, in order. */
  function RemoveSpaces(s: string): (r: string)
    ensures ' ' !in r
    ensures |r| <= |s|
  {
    if s == [] then []
    else if s[0] == ' ' then RemoveSpaces(s[1..])
    else [s[0]] + RemoveSpaces(s[1..])
  }

  /** A text without spaces is left as it is. */
  lemma {:induction false} RemoveSpacesNoop(s: string)
    requires ' ' !in s
    ensures RemoveSpaces(s) == s
  {
    if s != [] {
      RemoveSpacesNoop(s[1..]);
      assert s == [s[0]] + s[1..];
    }
  }

  /** Removing spaces works piece by piece, so it is idempotent and keeps the order of the other characters. */
  lemma {:induction false} RemoveSpacesAppend(a: string, b: string)
    ensures RemoveSpaces(a + b) == RemoveSpaces(a) + RemoveSpaces(b)
  {
    if a == [] {
      assert a + b == b;
    } else {
      assert (a + b)[0] == a[0] && (a + b)[1..] == a[1..] + b;
      RemoveSpacesAppend(a[1..], b);
    }
  }

  /** Every character other than a space occurs as often after the removal as before. */
  lemma {:induction false} RemoveSpacesCounts(s: string, c: char)
    requires c != ' '
    ensures multiset(RemoveSpaces(s))[c] == multiset(s)[c]
  {
    if s != [] {
      RemoveSpacesCounts(s[1..], c);
      assert s == [s[0]] + s[1..];
    }
  }

  /** Removing spaces twice is the same as removing them once. */
  lemma RemoveSpacesIdempotent(s: string)
    ensures RemoveSpaces(RemoveSpaces(s)) == RemoveSpaces(s)
  {
    RemoveSpacesNoop(RemoveSpaces(s));
  }

  /** `str(...).replace('\'', '\"')`: every single quote becomes a double quote, every other character stays. */
  function ReplaceQuotes(s: string): (r: string)
    ensures |r| == |s|
    ensures forall i :: 0 <= i < |s| ==> r[i] == (if s[i] == '\'' then '"' else s[i])
    ensures '\'' !in r
  {
    if s == [] then []
    else [if s[0] == '\'' then '"' else s[0]] + ReplaceQuotes(s[1..])
  }

  /** A text without single quotes is left as it is; in particular the rewriting is idempotent. */
  lemma QuoteFreeUnchanged(s: string)
    requires '\'' !in s
    ensures ReplaceQuotes(s) == s
  {
    var r := ReplaceQuotes(s);
    forall i | 0 <= i < |s| ensures r[i] == s[i] {
      assert s[i] != '\'';
    }
  }

  /** The rewriting works character by character, so it commutes with concatenation. */
  lemma {:induction false} ReplaceQuotesAppend(a: string, b: string)
    ensures ReplaceQuotes(a + b) == ReplaceQuotes(a) + ReplaceQuotes(b)
  {
    if a == [] {
      assert a + b == b;
    } else {
      assert (a + b)[0] == a[0] && (a + b)[1..] == a[1..] + b;
      ReplaceQuotesAppend(a[1..], b);
    }
  }

  /** The rewriting only touches quotes, so a cell reads "nan" after it exactly when it read "nan" before. */
  lemma NanAfterReplace(s: string)
    ensures ReplaceQuotes(s) == "nan" <==> s == "nan"
  {
    if s == "nan" {
      QuoteFreeUnchanged(s);
    }
    if ReplaceQuotes(s) == "nan" {
      var r := ReplaceQuotes(s);
      forall i | 0 <= i < 3 ensures s[i] == r[i] {
        assert r[i] != '"';
      }
    }
  }

  /** The evaluation standard as written, before its spaces are removed. */
  const RAW_STANDARD: string :=
    "\n"
    + "<评估标准>\n"
    + "1. 主线 (核心故事线): \n"
    + "    评估主线故事是否有充足的看点\n"
    + "    - 评估标准\n"
    + "        1. **主线剧情清晰**, 核心矛盾冲突简单易懂, 让观众无需理解能力即可看懂, 主要矛盾需集中于一处(或一人/一团体/一实体)\n"
    + "        2. **剧情节奏紧凑且脉络简单**, 不宜过于悬疑, 符合短剧快节奏-通俗-简单的基本要求, 剧情事件一环扣一环\n"
    + "        3. **逻辑自洽**, 剧情前后呼应, 人物设定符合剧情背景且无违和感\n"
    + "        4. (非必须) **看点丰富**, 剧情要有丰富且精彩不断的看点, 以长期不断观众观看\n"
    + "2. 人设 (角色设定): \n"
    + "    评估角色的人格吸引力和以及角色能否合理地融入剧情\n"
    + "    - 评估标准 (基本满足即可)\n"
    + "        1. **角色性格鲜明**, 具备很好的辨识度, 不应该存在扁平化或缺乏个性的角色\n"
    + "        2. **角色动机明确**, 角色有明确的动机, 且所有行为与动作都建立在其基本动机之上, 且逻辑自洽\n"
    + "        在人设评估阶段暂不考虑人设之间的关系, 主要考虑人设和剧情大背景之间的关联程度\n"
    + "3. 钩子 (关键悬念点): \n"
    + "    评估剧情钩子能否引导观众继续观看剧集\n"
    + "    - 评估标准 (满足其一就算通过)\n"
    + "        1. **在开篇或关键情节设置了强烈冲突**, 吸引观众眼球\n"
    + "        2. **在开篇或关键情节刻意制造信息差**, 引发观众好奇心理\n"
    + "        3. **将剧情情绪烘托到高位, 戛然而止**, 令观众深入沉浸, 渴望继续观看\n"
    + "        4. **剧情卡点设置恰当, 破坏关键剧情的连贯性**, 引发观众继续观看的强烈期待\n"
    + "4. 投流 (商业化潜力): \n"
    + "    评估大纲的推广传播潜力以及商业变现潜力\n"
    + "    - 评估标准 (满足其一就算通过)\n"
    + "        1. **吸睛事件**，可提炼出一定数量的投流素材\n"
    + "        2. **矛盾冲突激烈**, 牵动观众情绪\n"
    + "</评估标准>\n"
    + "<输出格式>\n"
    + "```json\n"
    + "[\n"
    + "    {\"dimension\": \"主线\", \"analysis\": ..., \"result\": \"通过/不通过\"},\n"
    + "    {\"dimension\": \"人设\", \"analysis\": ..., \"result\": \"通过/不通过\"},\n"
    + "    {\"dimension\": \"钩子\", \"analysis\": ..., \"result\": \"通过/不通过\"},\n"
    + "    {\"dimension\": \"投流\", \"analysis\": ..., \"result\": \"通过/不通过\"}\n"
    + "]\n"
    + "```\n"
    + "</输出格式>"

  /** The evaluation standard that is appended to every instruction. */
  const STANDARD: string := RemoveSpaces(RAW_STANDARD)

  /** The fixed task and goal sentences that open every instruction (these keep their spaces). */
  const INSTRUCTION_PREFIX: string := "<任务>依据给定评估标准, 对用户提供的短剧大纲进行多维度评估, 给出各个维度的评估结果(通过/不通过), 对于不通过的维度, 请给出其原因和改进建议</任务>"
                                      + "<目标>按规定格式给出评估结果和改进建议</目标>"

  /** The instruction of every entry: the prefix followed by the standard. */
  const INSTRUCTION: string := INSTRUCTION_PREFIX + STANDARD

  /** `p + s` ends with `s`. */
  lemma EndsWith(p: string, s: string)
    ensures |s| <= |p + s| && (p + s)[|p + s| - |s|..] == s
  {
  }

  /** The standard holds no space, and the instruction ends with it. */
  lemma InstructionEndsWithStandard()
    ensures ' ' !in STANDARD
    ensures |STANDARD| <= |INSTRUCTION| && INSTRUCTION[|INSTRUCTION| - |STANDARD|..] == STANDARD
  {
    EndsWith(INSTRUCTION_PREFIX, STANDARD);
  }
}
