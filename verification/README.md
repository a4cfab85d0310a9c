# Agent context packer of the carbon-footprint retrieval system

This project models `CarbonFootprintRAG.get_context_for_agent` in Dafny.
That method builds the knowledge-base context string that the carbon-accounting
AI agents receive in their prompts. It takes the documents returned by the
similarity search, in retrieval order, and a character budget `max_length`
(default 2000). It then:

- returns `"No relevant context found in knowledge base."` when nothing was retrieved;
- labels document `i` (counting from 1) as `"[Source i]: " + page_content + "\n"`;
- keeps labelled parts while the running total of their lengths stays within
  `max_length`, and stops at the first part that does not fit. A later,
  shorter part is never tried;
- joins the kept parts with `"\n"`.

The retrieval call is not modelled. The documents enter the model as a
`seq<string>` of page contents, so everything is a pure function of
`(docs, maxLength)`. An exception raised by the similarity search itself is
caught and turned into an empty list (rag_system.py:220-225), so it shows up
here as the empty sequence and gives the fallback message. An exception while
loading or building the index is not caught there and is not modelled (see
"## Left out").

Modules:

- `Decimal` (decimal.dfy): how the f-string writes the document number, and a parser that inverts it.
- `Joining` (joining.dfy): `sep.join` with a one-character separator, and the summed length of a list of strings.
- `GreedyPrefix` (greedy.dfy): the greedy scan under a budget. It is stated twice, once as the loop does it (`FitFrom`) and once as a declarative cut (`IsGreedyCut`), and the two are proved equivalent.
- `AgentContext` (agent_context.dfy): labelling, packing, the context string, the imperative loop, and the lemmas about its layout.

The budget is checked against the sum of the part lengths, not against the
joined string. The join adds one `"\n"` between each pair of kept parts, so
with `n` kept parts the context is `n - 1` characters longer than that sum.
It can therefore exceed `max_length` by up to `n - 1` characters, even though
the source's docstring calls `max_length` the "maximum length of context
string". The model follows the code. `ContextForAgent` states the exact
length and `ContextCanExceedBudget` gives a concrete overrun. A budget smaller
than the first labelled part (including zero or a negative budget) yields the
empty string, not the fallback message.

Each chunk is labelled `[Source i]: ` before it is kept, and the budget
applies to the labelled parts, label and trailing newline included
(rag_system.py:246-251).

Python's `len` counts code points. Dafny's `char` is a Unicode scalar value,
so `|s|` agrees with `len(s)` for every string without lone surrogates.

## Model

| member | source | states |
|---|---|---|
| `Decimal.NatToString` | rag_system.py:247 | The number in a label is written in canonical decimal: non-empty, ASCII digits only, no leading zero, and a single digit exactly when the number is below 10. |
| `Decimal.ParseNatToString` | rag_system.py:247 | Reading back the decimal text of a label number gives that number. |
| `Decimal.NatToStringParse` | rag_system.py:247 | Every canonical numeral is the rendering of the number it denotes, so rendering and parsing are inverse bijections. |
| `Decimal.NatToStringInjective` | rag_system.py:247 | Two document numbers get the same decimal text if and only if they are equal. |
| `Joining.Join` | rag_system.py:253 | Joining no parts gives the empty string. Otherwise the length is the sum of the part lengths plus one per gap between neighbours. |
| `Joining.JoinPartAt` | rag_system.py:253 | Each part appears unchanged in the joined string, starting after all earlier parts and one separator per earlier part. |
| `Joining.JoinSeparatorAt` | rag_system.py:253 | The separator stands immediately before every part except the first. |
| `GreedyPrefix.FitFrom` | rag_system.py:246-251 | The scan resumed at index `k` stops somewhere between `k` and the end of the list. |
| `GreedyPrefix.FitCountIsGreedyCut` | rag_system.py:246-251 | The loop stops at `n` if and only if each of the first `n` parts fitted when it was added and, unless all were kept, part `n + 1` would have pushed the total over the budget. Such a cut is unique. |
| `GreedyPrefix.Take` | rag_system.py:243-251 | The kept list is a prefix of the input. Its total length is within the budget unless it is empty. It is maximal: the next item would exceed the budget. If the first item alone exceeds the budget, nothing is kept. |
| `GreedyPrefix.AllFitTakesAll` | rag_system.py:246-251 | When the whole list fits within the budget, everything is kept. |
| `AgentContext.SourcePart` | rag_system.py:247 | A labelled part is at least 13 characters longer than the document's content: `[Source `, at least one digit, `]: ` and the trailing newline. Any budget of 12 or less therefore keeps nothing. |
| `AgentContext.Parts` | rag_system.py:246-247 | There is one labelled part per retrieved document, numbered from 1 in retrieval order. `PartsAt` gives the contents of each part. |
| `AgentContext.PartsAt` | rag_system.py:246-247 | Labelled part `k` (0-based) is `"[Source " + (k + 1) + "]: " + docs[k] + "\n"`, numbered from 1 in retrieval order. |
| `AgentContext.SourcePartInjective` | rag_system.py:247 | Two labelled parts are equal exactly when the numbers and the contents are equal, so labels stay unambiguous even for contents that contain digits or `]: `. |
| `AgentContext.Pack` | rag_system.py:243-251 | `context_parts` are the labelled parts of a prefix of the documents. Their summed length (the final `current_length`) is at most `max_length` unless none is kept. If a document is left out, the next part would push the sum past `max_length`. |
| `AgentContext.PackAt` | rag_system.py:246-250 | Kept part `k` is exactly the labelled text of document `k`, numbered `k + 1`. |
| `AgentContext.ContextForAgent` | rag_system.py:238-253 | No documents give the fallback message. A first part longer than `max_length` gives `""`. Otherwise the length is the kept parts' sum plus (number kept - 1), which is at most `max_length` + (number kept - 1). |
| `AgentContext.GetContextForAgent` | rag_system.py:227-253 | The imperative loop, with its early `break` and running length, returns exactly the string `ContextForAgent` specifies. Its invariant keeps the running total within `max_length` once a part has been kept. |
| `AgentContext.ContextNotFallback` | rag_system.py:240-253 | A non-empty retrieval never returns the fallback message, even when nothing fits. |
| `AgentContext.SmallBudgetGivesEmpty` | rag_system.py:240-253 | With documents present and a budget of 12 or less (zero and negative budgets included), the result is the empty string. |
| `AgentContext.DefaultBudgetKeepsFirst` | rag_system.py:227-251 | Under the default `max_length` of 2000, a first document of up to 1987 characters is always kept, as the labelled part `[Source 1]: ...`. |
| `AgentContext.PartOffset` | rag_system.py:244-253 | Kept part `k` starts at the summed length of the first `k` labelled parts plus `k` separators. |
| `AgentContext.ContextPartAt` | rag_system.py:253 | Every kept part appears unchanged in the context string, at its offset. |
| `AgentContext.ContextSeparatorAt` | rag_system.py:253 | A `"\n"` stands immediately before every kept part except the first. |
| `AgentContext.AllFitKeepsAll` | rag_system.py:246-253 | If all labelled parts fit within `max_length` together, every document is kept, in retrieval order, each exactly once. |
| `AgentContext.ContextCanExceedBudget` | rag_system.py:248-253 | Two one-character documents whose parts sum exactly to a budget of 28 give a 29-character context. The budget does not bound the joined string. |

## Left out

- `retrieve_context` and the similarity search (rag_system.py:206-225): the vector store, the embedding model and the search belong to external libraries. The retrieved page contents are an input instead.
- Document loading, splitting, embedding, and building, saving and loading the index (rag_system.py:60-145): filesystem I/O and calls into LangChain, HuggingFace and FAISS, whose chunking and ranking code is not available.
- The LLM, QA-chain setup and `query` (rag_system.py:44-50, 147-204): a network call to a hosted model and prompt templating inside a library. The exception-to-message wrapping carries no logic worth proving.
- Exceptions while loading or building the index (rag_system.py:105-128, 217-218): `load_vector_store` runs outside the `try` of `retrieve_context`, so a failure in `FAISS.load_local`, `FAISS.from_documents` or `save_local` propagates out of `get_context_for_agent`. The model has no error outcome for it; the documents are an input.
- `get_rag_system` (rag_system.py:256-265): process-wide singleton lifecycle.
- setup_rag.py: a command-line script of file-existence checks, an interactive prompt and console output.
- The `query` argument of `get_context_for_agent` only feeds retrieval, so it has no counterpart in the model. The default `max_length` of 2000 appears as `AgentContext.DefaultMaxLength`, which `DefaultBudgetKeepsFirst` uses.
- Strings holding lone surrogate code points, which Python allows and Dafny's `char` cannot represent.
