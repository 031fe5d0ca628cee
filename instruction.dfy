/** The system instruction sent with every request: `buildSystemInstruction`
    in netlify/functions/chat.js. The two texts are the source's template
    literals, character for character, with their line breaks as "\n". */
module Instruction {
  import opened Optional
  import opened Text

  /** The opening phrase both instructions share. */
  const AssistantIntro: string := "Você é o Assistente Virtual ‘Dr. Supremo’"

  /** The machine-readable marker the counsellor asks the model to put on a
      line of its own when the user shows purchase intent. */
  const PurchaseSentinel: string := "[PURCHASE_BUTTON]"

  /** Name-capture mode: extract the first name and answer with one fixed
      welcome sentence. */
  const NameCaptureInstruction: string := AssistantIntro + ("." + NameCaptureTask)

  /** Name-capture text after the shared opening and its full stop. */
  const NameCaptureTask: string :=
    " O usuário está respondendo à sua primeira pergunta: \"Como você gostaria de ser chamado(a)?\".\n"
    + "Sua ÚNICA tarefa agora é:\n"
    + "1. Extrair o primeiro nome do usuário do texto que ele enviou (ex: de \"me chamo Fabrício\", extraia \"Fabrício\").\n"
    + "2. Responder IMEDIATAMENTE e APENAS com a seguinte frase, usando o nome extraído: \"Bem-vindo(a), [Nome Extraído]! Fico feliz em ajudar. Para começarmos, qual sua principal dor ou o que mais te impede de avançar hoje? Pode ser foco, autoconfiança, controle emocional ou relacionamentos.\"\n"
    + "NÃO adicione nenhuma outra palavra, saudação ou comentário. Sua resposta deve ser exclusivamente a frase acima."

  /** Counsellor-mode text after the shared opening and its " (IA)" mark, up
      to the first occurrence of the name. */
  const CounselorLead: string :=
    ". Baseie todas as respostas exclusivamente no livro ‘O Poder Supremo’. Sua missão é diagnosticar a dor do(a) "

  /** Counsellor-mode text between the two occurrences of the name. */
  const CounselorMiddle: string :=
    ", oferecer micro‑insights práticos do livro e conduzir com ética para a aquisição do e‑book (R$ 47,00, checkout https://pay.kiwify.com.br/EQhHnRy).\n"
    + "Regras estritas:\n"
    + "1. Chame o usuário pelo primeiro nome ("

  /** Counsellor-mode rules after the second occurrence of the name, up to
      the purchase sentinel. */
  const CounselorRulesHead: string :=
    "). Use português do Brasil (pt-BR).\n"
    + "2. Formato de Resposta OBRIGATÓRIO: 2 a 3 mensagens curtas por turno, separadas por uma linha em branco. Cada mensagem deve ter no máximo 280 caracteres.\n"
    + "3. SEMPRE termine sua última mensagem com uma pergunta para manter o diálogo ativo.\n"
    + "4. Cite capítulos do livro sutilmente ao dar um insight (ex: \"No Cap. 1 - Auto Persuasão, abordamos isso...\"). NÃO invente conteúdo. Se algo não estiver no livro, admita a limitação.\n"
    + "5. Sem promessas garantidas, resultados milagrosos ou conselhos clínicos/financeiros. Mantenha um tom humano, empático e encorajador.\n"
    + "6. Quando o usuário mostrar intenção de compra (\"quero começar\", \"onde compro\", \"faz sentido\", \"quanto custa?\"), insira em uma linha completamente isolada: "

  /** Counsellor-mode rules after the purchase sentinel: the rest of rule 6
      and the pain-to-chapter table. */
  const CounselorRulesTail: string :=
    ". NENHUM outro texto deve estar nessa linha.\n"
    + "Mapeamento de Dores -> Capítulos:\n"
    + "- Falta de confiança/foco/autossabotagem: Cap. 1 (Auto Persuasão), Cap. 2 (Subconsciente).\n"
    + "- Controle emocional/ansiedade: Cap. 8 (Controle Emocional).\n"
    + "- Influência/relacionamentos/persuasão: Cap. 7 (Influência Social), Cap. 4 (Insinuação).\n"
    + "- Mudança de vida/visão de futuro: Cap. 10 (Manipulando o Futuro).\n"
    + "- Comunicação não verbal: Cap. 6.\n"
    + "- PNL/linguagem: Cap. 5."

  const CounselorRules: string := CounselorRulesHead + PurchaseSentinel + CounselorRulesTail


  /** A template with two placeholders for the same value. */
  function Interpolate(lead: string, value: string, middle: string, rest: string): string
  {
    lead + value + middle + value + rest
  }

  /** Counsellor mode: the template with the captured name interpolated at
      both of its placeholders. */
  function CounselorInstruction(name: string): (text: string)
    ensures Contains(text, name)
    ensures Contains(text, PurchaseSentinel)
  {
    var filled := Interpolate(CounselorLead, name, CounselorMiddle, CounselorRules);
    InterpolateContains(CounselorLead, name, CounselorMiddle, CounselorRulesHead, PurchaseSentinel, CounselorRulesTail);
    ContainsAfterPrefix(AssistantIntro + " (IA)", filled, name);
    ContainsAfterPrefix(AssistantIntro + " (IA)", filled, PurchaseSentinel);
    AssistantIntro + " (IA)" + filled
  }

  /** `buildSystemInstruction(userName)`: a falsy name selects the fixed
      name-capture text, any other name the counsellor text built around it. */
  function BuildSystemInstruction(userName: Option<string>): (text: string)
    ensures !Truthy(userName) ==> text == NameCaptureInstruction
    ensures Truthy(userName) ==> text == CounselorInstruction(userName.value)
    ensures Truthy(userName) ==> text != NameCaptureInstruction
    ensures Truthy(userName) ==> Contains(text, userName.value) && Contains(text, PurchaseSentinel)
  {
    if !Truthy(userName) then NameCaptureInstruction
    else
      CounselorDiffersFromNameCapture(userName.value);
      CounselorInstruction(userName.value)
  }

  /** An interpolated template contains the value, and a marker placed in
      the text after the second placeholder. */
  lemma InterpolateContains(lead: string, value: string, middle: string,
                            head: string, marker: string, tail: string)
    ensures Contains(Interpolate(lead, value, middle, head + marker + tail), value)
    ensures Contains(Interpolate(lead, value, middle, head + marker + tail), marker)
  {
    var text := Interpolate(lead, value, middle, head + marker + tail);
    assert OccursAt(text, value, |lead|) by {
      assert text[|lead|..|lead| + |value|] == value;
    }
    var at := |lead + value + middle + value + head|;
    assert OccursAt(text, marker, at) by {
      assert text[at..at + |marker|] == marker;
    }
  }

  /** Different values give different interpolations of one template. */
  lemma InterpolateInjective(lead: string, a: string, b: string, middle: string, rest: string)
    requires Interpolate(lead, a, middle, rest) == Interpolate(lead, b, middle, rest)
    ensures a == b
  {
    var ta, tb := Interpolate(lead, a, middle, rest), Interpolate(lead, b, middle, rest);
    assert |ta| == |tb|;
    assert ta[|lead|..|lead| + |a|] == a;
    assert tb[|lead|..|lead| + |b|] == b;
  }

  /** Two texts with a common opening differ when the characters right after
      it differ. */
  lemma DivergeAfterPrefix(prefix: string, x: string, y: string)
    requires |x| > 0 && |y| > 0 && x[0] != y[0]
    ensures prefix + x != prefix + y
  {
    assert (prefix + x)[|prefix|] == x[0];
    assert (prefix + y)[|prefix|] == y[0];
  }

  /** No name turns the counsellor text into the name-capture text: after the
      shared opening one continues with " (IA)", the other with ".". */
  lemma CounselorDiffersFromNameCapture(name: string)
    ensures CounselorInstruction(name) != NameCaptureInstruction
  {
    var filled := Interpolate(CounselorLead, name, CounselorMiddle, CounselorRules);
    assert (" (IA)" + filled)[0] == ' ';
    assert ("." + NameCaptureTask)[0] == '.';
    DivergeAfterPrefix(AssistantIntro, " (IA)" + filled, "." + NameCaptureTask);
  }

  /** Different names give different counsellor instructions, so the name
      can always be read back from the instruction. */
  lemma CounselorInstructionInjective(a: string, b: string)
    requires CounselorInstruction(a) == CounselorInstruction(b)
    ensures a == b
  {
    var opening := AssistantIntro + " (IA)";
    var fa := Interpolate(CounselorLead, a, CounselorMiddle, CounselorRules);
    var fb := Interpolate(CounselorLead, b, CounselorMiddle, CounselorRules);
    assert fa == (opening + fa)[|opening|..];
    assert fb == (opening + fb)[|opening|..];
    InterpolateInjective(CounselorLead, a, b, CounselorMiddle, CounselorRules);
  }
}
