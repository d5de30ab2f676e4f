# pydocstring in Dafny

A model of the core of pydocstring, a tool that writes a skeleton docstring
(Google, Numpy or reST style) for the Python function, class or module at a
cursor position. It has two layers, and the model covers both:

- **The template layer.**
  - `ingest/unpack_parso.py` turns a parsed function, class or module into
    plain records (`data_structures.py`).
  - `format/format_utils.py` and `format/format_docstring.py` write those
    records through a per-style table of format strings
    (`format/docstring_styles.py`).
  - `docstring_formatter.py` does both steps at once on the parse tree.
  - `format_utils.py` supplies its helpers.
- **The text layer.**
  - `document.py` finds declarations and the block around the cursor in the
    raw source.
  - `parse_utils.py` reads parameters, return type, returns, yields, raises
    and attributes off that text with regular expressions.
  - `formatters/google.py`, `formatters/numpy.py` and `formatters/reST.py`
    write the docstring with fixed literal text.
  - `formatters/__init__.py` looks a formatter up by name.

Each source file has one Dafny module:

| module | file |
|---|---|
| `DataStructures` | `data_structures.dfy` |
| `DocstringStyles` | `docstring_styles.dfy` |
| `FormatUtils` | `format_utils.dfy` |
| `FormatDocstring` | `format_docstring.dfy` |
| `UnpackParso` | `unpack_parso.dfy` |
| `LegacyFormatUtils` | `legacy_format_utils.dfy` |
| `DocstringFormatter` | `docstring_formatter.dfy` |
| `Document` | `document.dfy` |
| `ParseUtils` | `parse_utils.dfy` |
| `LegacyGoogle` | `google.dfy` |
| `LegacyNumpy` | `numpy.dfy` |
| `LegacyReST` | `rest.dfy` |
| `Formatters` | `formatters.dfy` |

Shared vocabulary lives in these modules:

- `Wrappers`: `Option` and `Result`, and a fallible call mapped over a list.
- `Exc`: the error kinds. These are the package's `InvalidFormatterError`,
  plus the Python errors the code can raise: `AttributeError`, `IndexError`,
  `ValueError` from `min([])`, an exception escaping `ast.literal_eval`, and
  a `Diverges` outcome for a loop that never ends.
- `Text`: whitespace, `strip`, `split`/`join`, `lower`, and word
  normalisation.
- `Scan`: searching, splitting into lines, and insertion-ordered
  dictionaries as association lists.
- `Template`: `str.format` over positional fields.
- `SyntaxTree`: the parts of a parso tree the code reads.
- `Dedent`: `textwrap.dedent`.
- `Layout`: text as newline-terminated lines.

The conventions are these:

- **Truthiness.** A Python `if x:` on an optional string is
  `Truthy(o)`, meaning present and non-empty. `if node:` on a tree node is
  presence.
- **Type inference.** `safe_determine_type` is an oracle parameter `infer`
  that always answers a type name.
  The `type(ast.literal_eval(...)).__name__` call in
  `parse_function_declaration` is an oracle `eval`. Its answer is a type
  name, a `ValueError`, or another exception such as `SyntaxError`.
- **Python exceptions.** Where the modelled code raises, the model returns a
  `Result` error carrying that failure. This covers a missing attribute, no
  regex match, the minimum of an empty list, an unknown style or formatter,
  and an exception that escapes `ast.literal_eval`.

Most properties are stated against a second, independent description of the
same behaviour:

- **Line lists.** Each fixed-text formatter gives its output as a list of
  lines, and it is proved that reading the docstring back line by line gives
  exactly those lines.
- **Readings.** Each regex scan is described line by line as a sequence of
  readings. The dictionaries and sets built from them are characterised by
  the last assignment that stands for each name.
- **Two routes.** The direct parse-tree formatter is proved to agree with
  unpacking followed by template formatting, and the cases where the two
  routes differ are pinned.

## Model

| member | source | states |
|---|---|---|
| DataStructures.FreshFunctionIsEmpty | pydocstring/data_structures.py:18-29 | A `FunctionDetails` built from its defaults has no parameters by `has_parameters`, no returns, yields or raises, and no annotation |
| DocstringStyles.StyleNamed | pydocstring/format/docstring_styles.py:6-13 | A name denotes a style exactly when it is one of `list_values()`, and the style found has that name as its value |
| DocstringStyles.StyleNamedValue | pydocstring/format/docstring_styles.py:6-9 | Looking up any style's value finds that same style, so the three values are distinct |
| DocstringStyles.GoogleWellFormed | pydocstring/format/docstring_styles.py:34-48 | Every Google block opener is literal text starting with two blank-line newlines; every placeholder uses only the positional fields its callers supply and ends in a newline; the attribute line has visible text |
| DocstringStyles.NumpyWellFormed | pydocstring/format/docstring_styles.py:49-63 | The same shape guarantees for the Numpy table |
| DocstringStyles.ReSTWellFormed | pydocstring/format/docstring_styles.py:64-78 | The same shape guarantees for the reST table |
| DocstringStyles.TemplateMapWellFormed | pydocstring/format/docstring_styles.py:33-79 | Every entry of `TEMPLATE_MAP` has that shape, so no `format` call on a template can raise `IndexError` |
| DocstringStyles.GetStyleTemplate | pydocstring/format/docstring_styles.py:82-98 | Succeeds exactly for the three listed style names and then returns that style's well-formed table entry; any other name fails with `InvalidFormatterError` naming the style |
| DocstringStyles.GoogleParamLines | pydocstring/format/docstring_styles.py:36-47 | The Google parameter, `*args`, `**kwargs` and attribute lines for arbitrary field values, as text |
| DocstringStyles.GoogleReturnLines | pydocstring/format/docstring_styles.py:40-45 | The Google return, annotation, yield and raise lines for arbitrary field values, as text |
| DocstringStyles.NumpyParamLines | pydocstring/format/docstring_styles.py:51-62 | The Numpy entry lines: the name and type on one indented line, the description on the next, more deeply indented |
| DocstringStyles.NumpyReturnLines | pydocstring/format/docstring_styles.py:55-60 | The Numpy return, annotation, yield and raise entries as two indented lines |
| DocstringStyles.ReSTParamLines | pydocstring/format/docstring_styles.py:66-77 | The reST `:param`/`:type` and `:var`/`:type` field pairs, with the description taken from field 2 and the type from field 1 |
| DocstringStyles.ReSTReturnLines | pydocstring/format/docstring_styles.py:70-75 | The reST `:return:`/`:rtype:`, `:yields:`/`:ytype:` and `:raises` fields, with the expression from field 1 and the type from field 0 |
| DocstringStyles.Headers | pydocstring/format/docstring_styles.py:35-76 | The text of every section opener of every style |
| FormatUtils.DefaultText | pydocstring/format/format_utils.py:19 | The default suffix is non-empty exactly when the default is truthy, and then is the default wrapped in ``" default: ``"`` … ``"``"`` |
| FormatUtils.ParamsGrowByOneLine | pydocstring/format/format_utils.py:18-20 | Appending a parameter appends exactly its filled placeholder line to the parameters section, leaving the text before it unchanged |
| FormatUtils.FormatParams | pydocstring/format/format_utils.py:9-22 | The section is the opener, then the `*args` line if truthy, then the `**kwargs` line if truthy, then one line per parameter in order; it starts with two newlines |
| FormatUtils.ReturnsGrowByOneLine | pydocstring/format/format_utils.py:28-29 | Appending a return appends exactly its filled return line |
| FormatUtils.FormatReturns | pydocstring/format/format_utils.py:25-31 | The opener followed by one filled line per return, in order |
| FormatUtils.FormatAnnotation | pydocstring/format/format_utils.py:34-39 | The return opener, then exactly the annotation line |
| FormatUtils.FormatYields | pydocstring/format/format_utils.py:42-48 | The yield opener followed by one filled line per yield, in order |
| FormatUtils.FormatRaises | pydocstring/format/format_utils.py:51-57 | The raise opener followed by one filled line per exception name, in order |
| FormatUtils.FormatAttributes | pydocstring/format/format_utils.py:60-66 | The attribute opener followed by one line per attribute; not blank once there is an attribute |
| FormatUtils.AttributesGrowByOneLine | pydocstring/format/format_utils.py:63-64 | Appending an attribute appends exactly its filled line |
| FormatUtils.EmptySections | pydocstring/format/format_utils.py:25-66 | With nothing to list, each section is its opener alone |
| FormatDocstring.PartsAreSections | pydocstring/format/format_docstring.py:30-42 | Each of the four parts is empty or a section starting with two newlines. It is empty exactly when its guard fails: `has_parameters()`; returns or a truthy annotation; yields; raises |
| FormatDocstring.FormatFunction | pydocstring/format/format_docstring.py:27-45 | The docstring starts and ends with a newline, and is just `"\n\n"` exactly when the function has nothing to document |
| FormatDocstring.BodyEmptyIffBare | pydocstring/format/format_docstring.py:27-45 | The four parts together are empty exactly when there are no parameters, returns, truthy annotation, yields or raises |
| FormatDocstring.InnerParts | pydocstring/format/format_docstring.py:27-45 | Stripping the two framing newlines leaves the parameters, returns, yields and raises parts, in that order |
| FormatDocstring.ParamsAlone | pydocstring/format/format_docstring.py:30-31 | A function with only parameters documents exactly its parameters section |
| FormatDocstring.ReturnsAlone | pydocstring/format/format_docstring.py:33-36 | A function with only returns or an annotation documents exactly its returns part |
| FormatDocstring.YieldsAlone | pydocstring/format/format_docstring.py:38-39 | A function with only yields documents exactly its yields section |
| FormatDocstring.RaisesAlone | pydocstring/format/format_docstring.py:41-42 | A function with only raises documents exactly its raises section |
| FormatDocstring.SectionsInFixedOrder | pydocstring/format/format_docstring.py:27-45 | The docstring is the concatenation of the single-kind docstrings' sections, in the fixed order |
| FormatDocstring.AnnotationIgnoredWithReturns | pydocstring/format/format_docstring.py:33-36 | When there are return values, changing the annotation does not change the docstring |
| FormatDocstring.AnnotationStandsIn | pydocstring/format/format_docstring.py:35-36 | Without return values, a truthy annotation gives the annotation section in the returns slot |
| FormatDocstring.FormatClass | pydocstring/format/format_docstring.py:48-55 | Framed by newlines; just `"\n\n"` exactly when there are no attributes; otherwise not blank and opening with three newlines |
| FormatDocstring.FormatModule | pydocstring/format/format_docstring.py:58-69 | The result is `"\n\nEmpty Module\n\n"` exactly when there are no attributes; otherwise it is the class docstring of the same attributes |
| FormatDocstring.ModuleText | pydocstring/format/format_docstring.py:61-67 | The text before the blank check strips to nothing exactly when there are no attributes, and is never already the Empty Module text |
| FormatDocstring.Run | pydocstring/format/format_docstring.py:72-86 | Fails with `InvalidFormatterError` exactly when the style is not listed; otherwise the function, class or module facts go to their own renderer with the named style's template, and the docstring is framed by newlines |
| FormatDocstring.FreshDetailsRender | pydocstring/format/format_docstring.py:72-86 | For every style, fresh function and class records give `"\n\n"` and a fresh module gives the Empty Module text |
| FormatDocstring.FreshRender | pydocstring/format/format_docstring.py:27-69 | The same for any well-formed template |
| FormatDocstring.StarsOnlyRender | pydocstring/format/format_utils.py:9-16 | A function with only `*args` and `**kwargs` documents the parameters opener, then the `*args` line, then the `**kwargs` line, with the fixed descriptions |
| FormatDocstring.GoogleStarsExample | tests/test_formatters/test_google_formatting.py:14-30 | `def method(*args, **kwargs)` in Google style gives the Args block with the two variable-argument lines |
| UnpackParso.UnpackParam | pydocstring/ingest/unpack_parso.py:24-36 | Fails only on a non-leaf annotation. It keeps the name and the default's code. The type is the annotation if present, else the inferred type of a non-empty default, else `TYPE` |
| UnpackParso.InferenceOnlyWithoutAnnotation | pydocstring/ingest/unpack_parso.py:33-34 | Type inference is consulted only for an unannotated parameter with a default |
| UnpackParso.PlainParamIsFresh | pydocstring/ingest/unpack_parso.py:24-36 | A bare parameter unpacks to the fresh record: type `TYPE`, no default |
| UnpackParso.UnpackParams | pydocstring/ingest/unpack_parso.py:77-83 | The parameter loop succeeds exactly when every non-star parameter unpacks, and changes nothing but `params`, `args` and `kwargs` |
| UnpackParso.UnpackParamsStars | pydocstring/ingest/unpack_parso.py:78-81 | `args` and `kwargs` end as the name of the last one-star and two-star parameter, or keep their earlier value |
| UnpackParso.UnpackParamsOrdinary | pydocstring/ingest/unpack_parso.py:82-83 | `params` is extended by the unpacked non-star parameters, in order, and nothing else |
| UnpackParso.UnpackReturn | pydocstring/ingest/unpack_parso.py:39-48 | Fails only on a leaf. The type is the truthy annotation or `TYPE`. The expression is whitespace-normalised, one line, with the same words as the stripped code after the keyword |
| UnpackParso.DescendToName | pydocstring/ingest/unpack_parso.py:61-66 | A `name` node gives its own value. Any other node descends to its first child. A leaf that is not a name fails with `AttributeError` (no `children`), and a branch with no children fails with `IndexError` |
| UnpackParso.DescendThroughFirstChild | pydocstring/ingest/unpack_parso.py:63-64 | Any other node defers to its first child |
| UnpackParso.UnpackExceptionName | pydocstring/ingest/unpack_parso.py:51-66 | For a statement with a second child, exactly that child's descent to a name. A leaf fails with `AttributeError` and a shorter statement with `IndexError` |
| UnpackParso.RaiseCallName | pydocstring/ingest/unpack_parso.py:60-66 | `raise E(...)` gives `E`, the name under the call node's first child |
| UnpackParso.UnpackReturns | pydocstring/ingest/unpack_parso.py:85-86 | Succeeds exactly when every node is a statement, and then maps each one through `unpack_return`, in order |
| UnpackParso.UnpackRaises | pydocstring/ingest/unpack_parso.py:87 | Succeeds exactly when every raise has a name, and then lists the names in order |
| UnpackParso.AnnotationText | pydocstring/ingest/unpack_parso.py:74-75 | An annotation must be a leaf, and its value is taken |
| UnpackParso.UnpackFunction | pydocstring/ingest/unpack_parso.py:69-89 | Succeeds exactly when every part unpacks. Then: the annotation is copied; params are the non-star parameters in order; `args`/`kwargs` are the last starred names; one record per return, yield and raise, each from its node |
| UnpackParso.UnpackAttribute | pydocstring/ingest/unpack_parso.py:92-98 | Succeeds exactly when `get_rhs` succeeds and the first child is a leaf. The name is that leaf. The code is the stripped right-hand side. The type is inferred from the code |
| UnpackParso.AnnotatedAttributeCode | pydocstring/ingest/unpack_parso.py:92-98 | For `x: T = v` the code is that of `v`, not of the annotation |
| UnpackParso.UnpackClass | pydocstring/ingest/unpack_parso.py:101-114 | The attributes are those of the `expr_stmt`s inside simple statements of the class suite, and it fails exactly when one of them fails |
| UnpackParso.UnpackModule | pydocstring/ingest/unpack_parso.py:118-129 | The same over the module's top-level simple statements |
| UnpackParso.BodyAttrsAppend | pydocstring/ingest/unpack_parso.py:123-127 | Attributes of concatenated statement lists are the concatenation of their attributes (failures propagate) |
| UnpackParso.NestedStatementIgnored | pydocstring/ingest/unpack_parso.py:124 | A statement that is not a simple statement contributes nothing |
| UnpackParso.SingleAssignment | pydocstring/ingest/unpack_parso.py:124-127 | A simple statement holding one assignment contributes exactly that attribute, or its failure |
| UnpackParso.ClassSuiteLikeModule | pydocstring/ingest/unpack_parso.py:106-112 | A class's suite is read exactly like a module with the same statements |
| UnpackParso.HeaderIgnored | pydocstring/ingest/unpack_parso.py:106-107 | Class children other than the suite contribute nothing |
| LegacyFormatUtils.GetParamInfo | pydocstring/format_utils.py:31-46 | Fails only on a non-leaf annotation. The default text is non-empty exactly when there is a default, and then wraps its code. The type is the annotation, else the inferred type when there is a default, else `TYPE` |
| LegacyFormatUtils.ParamInfoAgrees | pydocstring/format_utils.py:41-45 | When a default's code is non-empty, `get_param_info` and `unpack_param` agree on name, type and default |
| LegacyFormatUtils.EmptyDefaultDiffers | pydocstring/format_utils.py:42-45 | For a default whose code is empty, the two disagree: `get_param_info` writes ``" default: ````"`` and infers a type, while `unpack_param` keeps `TYPE` |
| LegacyFormatUtils.GetReturnInfo | pydocstring/format_utils.py:49-63 | Fails exactly on a non-leaf annotation or a leaf return node; the type is the annotation's value or `TYPE` |
| LegacyFormatUtils.ReturnInfoText | pydocstring/format_utils.py:61-62 | The expression is normalised, is left unchanged by normalising it again, and has the same words as the code after the keyword |
| LegacyFormatUtils.ReturnInfoAgrees | pydocstring/format_utils.py:49-63 | Under a non-empty leaf annotation or none, `get_return_info` equals `unpack_return` |
| DocstringFormatter.ParamLine | pydocstring/docstring_formatter.py:38-50 | A parameter's line fails exactly when it is not starred and `get_param_info` fails |
| DocstringFormatter.ParamLines | pydocstring/docstring_formatter.py:38-50 | The parameter loop succeeds exactly when every non-star parameter unpacks |
| DocstringFormatter.StarLineInPlace | pydocstring/docstring_formatter.py:38-46 | A starred parameter's line is written in its place among the others, unlike `format_params`, which puts `*args` and `**kwargs` first |
| DocstringFormatter.ReturnLines | pydocstring/docstring_formatter.py:55-58 | The return loop succeeds exactly when `get_return_info` succeeds on every node |
| DocstringFormatter.RaiseLines | pydocstring/docstring_formatter.py:76-79 | The raise loop succeeds exactly when every raise has a name |
| DocstringFormatter.ParamsBlock | pydocstring/docstring_formatter.py:35-50 | Succeeds exactly when the non-star parameters unpack; the result is a section that is empty exactly when there are no parameters |
| DocstringFormatter.ReturnsBlock | pydocstring/docstring_formatter.py:52-63 | Succeeds exactly when the annotation is a leaf and every return is a statement; empty exactly without returns and annotation |
| DocstringFormatter.YieldsBlock | pydocstring/docstring_formatter.py:65-71 | Succeeds exactly when there is no yield or every yield reads; empty exactly without yields |
| DocstringFormatter.RaisesBlock | pydocstring/docstring_formatter.py:73-79 | Succeeds exactly when every raise has a name; empty exactly without raises |
| DocstringFormatter.FunctionDocstring | pydocstring/docstring_formatter.py:20-82 | Succeeds exactly when the function can be unpacked. The docstring is framed by newlines. It is `"\n\n"` exactly when there are no parameters, returns, annotation, yields or raises |
| DocstringFormatter.FunctionDocstringFails | pydocstring/docstring_formatter.py:20-82 | The direct formatter fails exactly when `unpack_function` fails |
| DocstringFormatter.ParamLinesAgree | pydocstring/docstring_formatter.py:47-50 | For non-star parameters with non-empty defaults, the loop writes the template line of each unpacked parameter, in order |
| DocstringFormatter.ReturnLinesAgree | pydocstring/docstring_formatter.py:55-58 | The return loop writes the template line of each unpacked return, in order |
| DocstringFormatter.RaiseLinesAgree | pydocstring/docstring_formatter.py:76-79 | The raise loop writes the template line of each exception name, in order |
| DocstringFormatter.ParamsBlockAgrees | pydocstring/docstring_formatter.py:35-50 | For a plain function, the direct parameters block equals `format_params` of the unpacked records |
| DocstringFormatter.ReturnsBlockAgrees | pydocstring/docstring_formatter.py:52-63 | For a plain function, the direct returns block equals the returns part of the unpacked records |
| DocstringFormatter.YieldsBlockAgrees | pydocstring/docstring_formatter.py:65-71 | For a plain function, the direct yields block equals the yields part of the unpacked records |
| DocstringFormatter.RaisesBlockAgrees | pydocstring/docstring_formatter.py:73-79 | The direct raises block always equals the raises part of the unpacked records |
| DocstringFormatter.FunctionLayersAgree | pydocstring/docstring_formatter.py:20-82 | For a plain function, the direct docstring equals unpacking followed by `format_function` |
| DocstringFormatter.AttrLine | pydocstring/docstring_formatter.py:113-118 | An attribute line fails exactly when `unpack_attribute` fails; otherwise it is the filled attribute line of the unpacked record |
| DocstringFormatter.UnpackAll | pydocstring/docstring_formatter.py:113-118 | Succeeds exactly when every assignment unpacks, and then gives their records in order |
| DocstringFormatter.SimpleCollectsAlike | pydocstring/docstring_formatter.py:106-109 | Collecting the `expr_stmt`s and then unpacking them is the same as the ingest loop |
| DocstringFormatter.BodyCollectsAlike | pydocstring/docstring_formatter.py:142-146 | Module bodies: the same |
| DocstringFormatter.ClassCollectsAlike | pydocstring/docstring_formatter.py:103-109 | Class children: the same |
| DocstringFormatter.AttrLinesAgree | pydocstring/docstring_formatter.py:113-118 | The attribute loop writes the template lines of the unpacked records |
| DocstringFormatter.AttributesAgree | pydocstring/docstring_formatter.py:111-118 | The attribute block is `format_attributes` of the unpacked records, or nothing without attributes |
| DocstringFormatter.ClassDocstring | pydocstring/docstring_formatter.py:85-121 | Succeeds exactly when `unpack_class` does, and then equals `format_class` of its records |
| DocstringFormatter.ModuleDocstring | pydocstring/docstring_formatter.py:124-160 | Succeeds exactly when `unpack_module` does, and then equals `format_module` of its records, Empty Module case included |
| ParseUtils.FirstOpening | pydocstring/parse_utils.py:36-37 | The leftmost index where `\((.*)\)` can match: no index before it matches |
| ParseUtils.ParenContents | pydocstring/parse_utils.py:36-37 | Fails with `AttributeError` exactly when no `(` has a `)` later on its line. Otherwise the group starts at the leftmost such `(`, stays on the line, and runs to the last `)` on it |
| ParseUtils.BracketedText | pydocstring/parse_utils.py:36-37 | Taking the line up to its last `)` is the greedy group |
| ParseUtils.FirstSplit | pydocstring/parse_utils.py:35 | The leftmost comma the bracket lookahead accepts |
| ParseUtils.SplitParams | pydocstring/parse_utils.py:35-39 | The pieces, joined with commas, give back the text. Every cut is at a comma the lookahead accepts, and no piece contains one |
| ParseUtils.SplitParamsWithoutBrackets | pydocstring/parse_utils.py:35 | Without brackets, the split is the plain split on commas |
| ParseUtils.KeepParams | pydocstring/parse_utils.py:39 | Keeps exactly the pieces that are neither blank nor `*` after stripping, in order |
| ParseUtils.KeepParamsAppend | pydocstring/parse_utils.py:39 | The filter distributes over concatenation |
| ParseUtils.DefaultType | pydocstring/parse_utils.py:53-64 | A literal gives its type name. A `ValueError` leaves the type unknown, unless the default is braced: then `itertools.izip`, missing on Python 3, raises `AttributeError`. Any other exception from `literal_eval` escapes |
| ParseUtils.ParseParam | pydocstring/parse_utils.py:43-75 | Only a piece with a default can fail. The piece has a default exactly when it contains `=` |
| ParseUtils.ParseParamMeaning | pydocstring/parse_utils.py:43-75 | Split at the first `=`: the stripped name and default, typed by the default, failing exactly as the default's type does. Else split at the first `:`: the stripped name and annotation type. Else the stripped piece alone |
| ParseUtils.DefaultParamParses | pydocstring/parse_utils.py:49-64 | `name=default` reads back as the stripped name and default with its type, or fails as the default's type does |
| ParseUtils.BadDefaultRaises | pydocstring/parse_utils.py:53-55 | A default on which `literal_eval` raises anything but `ValueError` makes the parameter raise it |
| ParseUtils.BracedNonLiteralRaises | pydocstring/parse_utils.py:55-59 | A braced default that is not a literal raises `AttributeError` at `itertools.izip` |
| ParseUtils.UnbracedNonLiteralUntyped | pydocstring/parse_utils.py:55-56 | Any other non-literal default is kept, with no type |
| ParseUtils.AnnotatedParamParses | pydocstring/parse_utils.py:66-69 | `name:annotation` reads back as the stripped name and type |
| ParseUtils.ReturnTypeAt | pydocstring/parse_utils.py:79 | A return-type reading starts at a `)` and stays on one line |
| ParseUtils.ReturnType | pydocstring/parse_utils.py:77-82 | Present exactly when `\)\s+->\s+(.*)\s*:` matches somewhere, and then read at the leftmost match |
| Wrappers.ParseEach | pydocstring/parse_utils.py:43-75 | A loop over the pieces: all results in order, or the error of the first piece that fails, every earlier one having parsed |
| ParseUtils.ParseFunctionDeclaration | pydocstring/parse_utils.py:12-84 | Succeeds exactly when the bracket search succeeds and every piece parses. Otherwise it fails with `AttributeError` from the search, or with the error of a failing piece. Parameter names are distinct, in first-seen order, each mapped to its last reading, as an `OrderedDict` does. The return type is the return-type reading |
| ParseUtils.FirstPieceFails | pydocstring/parse_utils.py:43-55 | When the first piece fails, the declaration fails with its error |
| ParseUtils.QuotedCommaRaises | pydocstring/parse_utils.py:35-55 | For bracket text `a="x,y"`, the comma split gives the piece `a="x`. `literal_eval` raises `SyntaxError` on `"x`, so the declaration raises it |
| ParseUtils.ReturnMatch | pydocstring/parse_utils.py:96 | A line matches exactly when it starts with `return` or `yield` after indentation. The keyword and the rest after the following spaces are given back |
| ParseUtils.ReturnStatementParses | pydocstring/parse_utils.py:96 | An indented `return expr`/`yield expr` line reads as that keyword and expression |
| ParseUtils.ParseReturnKeyword | pydocstring/parse_utils.py:86-100 | No duplicates; a pair is listed exactly when some line of the text reads as it |
| ParseUtils.NamePrefix | pydocstring/parse_utils.py:111 | The longest prefix without whitespace or `(` |
| ParseUtils.RaiseMatch | pydocstring/parse_utils.py:111 | A reading is `raise`, at least one space, then a non-empty name free of whitespace and `(` |
| ParseUtils.RaiseStatementParses | pydocstring/parse_utils.py:111 | An indented `raise Name…` line reads as `Name` |
| ParseUtils.ParseFunctionExceptions | pydocstring/parse_utils.py:103-115 | No duplicates; a name is listed exactly when some line reads as it |
| ParseUtils.AssignedValue | pydocstring/parse_utils.py:151 | After the name: optional spaces, `=`, optional spaces, then the value, which starts with a non-space |
| ParseUtils.Assignment | pydocstring/parse_utils.py:151 | A reading is an identifier, spaces, `=`, spaces, value; a line not starting with an identifier character never reads |
| ParseUtils.AssignmentParses | pydocstring/parse_utils.py:151 | `name = value` reads back as that name and value |
| ParseUtils.NotAtFirstColumn | pydocstring/parse_utils.py:151 | Indented, comment or string lines never read as module attributes |
| ParseUtils.DottedTargetIgnored | pydocstring/parse_utils.py:151 | `name.attr = …` is not a module attribute |
| ParseUtils.ParseModuleAttributes | pydocstring/parse_utils.py:142-156 | Names are distinct, and each pair is a name with the value of its last assignment |
| ParseUtils.Indentation | pydocstring/parse_utils.py:129 | The leading whitespace, which with the stripped line gives back the line |
| ParseUtils.LexLeqTotal | pydocstring/parse_utils.py:130 | Any two strings are comparable in Python's string order, so `min` is well defined |
| ParseUtils.LexMin | pydocstring/parse_utils.py:130 | `min` of a non-empty list is a member of it, at most every member |
| ParseUtils.ClassIndent | pydocstring/parse_utils.py:129-130 | Fails with `ValueError` exactly when no line is indented; otherwise the least non-empty indentation, which occurs in the text |
| ParseUtils.ClassAttrMatch | pydocstring/parse_utils.py:131-132 | A reading is an identifier, and the line starts with the class indentation. It comes from one of the two alternatives: `name = value` after one indentation, or `self.name = value` after two. The value read is the text after the `=` and its spaces |
| ParseUtils.ClassVariableParses | pydocstring/parse_utils.py:131-136 | `indent name = value` reads as a class variable |
| ParseUtils.InstanceVariableParses | pydocstring/parse_utils.py:131-138 | `indent indent self.name = value` reads as an instance variable |
| ParseUtils.NestedLineIgnored | pydocstring/parse_utils.py:131-132 | A doubly indented line that is not a `self.` assignment is not an attribute |
| ParseUtils.NoEqualsNoReading | pydocstring/parse_utils.py:131-132 | A line without `=`, such as a method header, is not an attribute |
| ParseUtils.FlushLineIgnored | pydocstring/parse_utils.py:131-132 | An unindented line is not an attribute |
| ParseUtils.ClassAttributesOf | pydocstring/parse_utils.py:133-140 | Names are distinct, and each pair is a name with its last assignment's value |
| ParseUtils.ParseClassAttributes | pydocstring/parse_utils.py:118-140 | Over the dedented text: fails exactly when no line is indented; otherwise the attributes read at the class indentation, last assignment winning |
| Scan.Dedup | pydocstring/parse_utils.py:97-100 | The `set` of matches: no duplicates, the same elements |
| Scan.Put | pydocstring/parse_utils.py:72-75 | Assigning into an ordered dictionary keeps the key order (a new key goes last), maps the key to the value, and leaves every other key alone |
| Scan.FromPairs | pydocstring/parse_utils.py:152-154 | Building an ordered dictionary: distinct keys in first-seen order, each mapped to its last value |
| Scan.AssignmentsThatStand | pydocstring/parse_utils.py:152-155 | A pair is in the dictionary built from the readings exactly when it is the last assignment to its name |
| Scan.LastAssignmentWins | pydocstring/parse_utils.py:152-155 | The last assignment to a name is the only value it has |
| Dedent.MarginSpec | pydocstring/parse_utils.py:127 | A margin exists exactly when some line has text. It prefixes the indentation of every line with text, and no longer margin does |
| Dedent.DedentText | pydocstring/parse_utils.py:127 | `textwrap.dedent` works line by line |
| Dedent.DedentKeepsText | pydocstring/parse_utils.py:127 | Every line with text loses exactly the margin |
| Dedent.DedentEmptiesBlank | pydocstring/parse_utils.py:127 | Whitespace-only lines become empty |
| Dedent.DedentLeavesNoMargin | pydocstring/parse_utils.py:127 | Afterwards no character is common to the start of every line with text |
| Dedent.DedentIdempotent | pydocstring/parse_utils.py:127 | Dedenting twice is dedenting once |
| Document.Overlap | pydocstring/document.py:103-104 | Never negative; positive exactly when the intervals share an interior point |
| Document.OverlapSymmetric | pydocstring/document.py:103-104 | The overlap does not depend on argument order |
| Document.DisjointNoOverlap | pydocstring/document.py:103-104 | Disjoint ranges do not overlap |
| Document.Survives | pydocstring/document.py:106-115 | A declaration survives exactly when every excluded range either misses it or lies strictly inside it |
| Document.KeepSurvivors | pydocstring/document.py:106-115 | Keeps every surviving declaration and only those |
| Document.KeepSurvivorsInOrder | pydocstring/document.py:106-115 | The kept declarations are a subsequence of the found ones |
| Document.FindAllDeclarations | pydocstring/document.py:89-117 | The declarations not inside a comment or string, in document order |
| Document.Resolve | pydocstring/document.py:132 | A given non-zero position wins; `None` or `0` falls back to the stored position |
| Document.LastBefore | pydocstring/document.py:133-136 | The last declaration starting before the position, or none when none does |
| Document.FirstAfter | pydocstring/document.py:152-155 | The first declaration starting after the position, or none when none does |
| Document.FindPreceding | pydocstring/document.py:119-136 | Present exactly when some declaration starts before the position. Then it is the last such one in the list: no later declaration starts before the position |
| Document.FindNext | pydocstring/document.py:138-155 | Present exactly when some declaration starts after the position. Then it is the first such one in the list: no earlier declaration starts after the position |
| Document.GetRange | pydocstring/document.py:157-168 | The slice of the source between the positions, when they are in order and in bounds |
| Document.Indentation | pydocstring/document.py:190 | The number of leading whitespace characters |
| Document.GetBlockAsWritten | pydocstring/document.py:171-203 | Without a preceding declaration, the block is `(position, position)`; it always starts at the preceding declaration; it either stops or diverges |
| Document.AsWrittenStopsAtNext | pydocstring/document.py:192-202 | As written, the block stops at the very next declaration whatever its depth |
| Document.NextAtLevel | pydocstring/document.py:192-202 | The first later declaration that is not deeper than the block's own |
| Document.GetBlock | pydocstring/document.py:171-203 | The block runs from the preceding declaration to the first later declaration at the same or a shallower level, or to the end of the file |
| Document.NestedBlockRunsToEnd | pydocstring/document.py:171-203 | With the cursor inside the first of two declarations and the second nested deeper, the block starts at the first and runs to the end of the file |
| Document.BlockOfClassWithMethod | pydocstring/document.py:199 | For a class holding one method, with the cursor on the class line, the block as written stops at the method; the corrected block reaches the end of the file |
| LegacyGoogle.ReturnLines | pydocstring/formatters/google.py:33-45 | Empty exactly without a truthy return type and statements. A Yields header exactly when there is no return type and the first keyword is `yield`; Returns otherwise. The entry line is the return type or `TYPE`, a colon, and then the first statement's expression if there is one |
| LegacyGoogle.FunctionDocstring | pydocstring/formatters/google.py:6-53 | Framed by newlines, `"\n\n"` without facts, and laid out as the reference line list |
| LegacyGoogle.FunctionReadsBack | pydocstring/formatters/google.py:21-53 | Reading the docstring back by lines gives exactly: one Args line per parameter in order, one return entry, one line per exception in order |
| LegacyGoogle.FirstStatementOnly | pydocstring/formatters/google.py:33-45 | Only the first return statement affects the docstring |
| LegacyGoogle.NoFactsExample | pydocstring/formatters/google.py:21-53 | No facts give `"\n\n"` |
| LegacyGoogle.ParamsExample | pydocstring/formatters/google.py:23-31 | Untyped and typed parameters give `    p1:` and `    p2 (int):` |
| LegacyGoogle.ReturnTypeExample | pydocstring/formatters/google.py:37-39 | A return type alone gives `    int:` |
| LegacyGoogle.ReturnTypeAndStatementExample | pydocstring/formatters/google.py:33-36 | A return type and statement give `    int: var1` |
| LegacyGoogle.YieldExample | pydocstring/formatters/google.py:40-45 | A yield without a type gives the Yields header and `    TYPE: var1` |
| LegacyGoogle.ExceptionExample | pydocstring/formatters/google.py:47-50 | An exception gives the Raises header and `    MyException: ` |
| LegacyNumpy.ReturnLines | pydocstring/formatters/numpy.py:34-46 | Empty exactly without type and statements; Yields exactly for an untyped `yield`; Returns otherwise. The underline matches the title's length; the type line is the return type or `TYPE`; the description line is the first statement's expression, indented |
| LegacyNumpy.FunctionDocstring | pydocstring/formatters/numpy.py:6-54 | Framed by newlines, and `"\n\n"` without facts |
| LegacyNumpy.FunctionDocstringLines | pydocstring/formatters/numpy.py:21-54 | The docstring is the reference line list, each line followed by a newline |
| LegacyNumpy.FunctionReadsBack | pydocstring/formatters/numpy.py:21-54 | Reading back by lines gives the reference list: two lines per parameter, a return entry, two lines per exception |
| LegacyNumpy.FirstStatementOnly | pydocstring/formatters/numpy.py:34-46 | Only the first return statement matters |
| LegacyNumpy.ClassDocstring | pydocstring/formatters/numpy.py:57-82 | Framed by newlines; `"\n\n"` exactly without attributes |
| LegacyNumpy.ClassReadsBack | pydocstring/formatters/numpy.py:70-82 | Reading back gives the Attributes header and two lines per attribute, in order |
| LegacyNumpy.ModuleDocstring | pydocstring/formatters/numpy.py:85-110 | Identical to the class docstring |
| LegacyNumpy.ParamsExample | pydocstring/formatters/numpy.py:23-32 | The three-parameter case: `p1 : TYPE`, `p2 : int`, `p3 : int` with ``default: ``2`` `` |
| LegacyNumpy.ReturnTypeExample | pydocstring/formatters/numpy.py:38-40 | A return type alone gives `int` and an empty indented line |
| LegacyNumpy.ReturnTypeAndStatementExample | pydocstring/formatters/numpy.py:34-37 | A return type and statement give `int` and `    var1` |
| LegacyNumpy.YieldExample | pydocstring/formatters/numpy.py:41-46 | An untyped yield gives the Yields header, `TYPE` and `    var1` |
| LegacyNumpy.ExceptionExample | pydocstring/formatters/numpy.py:48-51 | An exception gives the Raises header, the name, and an empty indented line |
| LegacyNumpy.AttributesExample | pydocstring/formatters/numpy.py:72-79 | Untyped and typed attributes give `attr1 : TYPE` and `attr2 : int` over their expressions |
| LegacyReST.ReturnLines | pydocstring/formatters/reST.py:34-46 | Empty exactly without statements and type. The first line is `:<keyword>s: <expr>`, or `:returns: ` when there is no statement. Then `:rtype:` with the type or `TYPE` |
| LegacyReST.FunctionDocstring | pydocstring/formatters/reST.py:6-52 | Framed by newlines, and `"\n\n"` without facts |
| LegacyReST.FunctionDocstringLines | pydocstring/formatters/reST.py:21-52 | The docstring is the reference line list, each line followed by a newline |
| LegacyReST.FunctionReadsBack | pydocstring/formatters/reST.py:21-52 | Reading back by lines gives `:param`/`:type` per parameter, the return pair, one `:raises:` line |
| LegacyReST.FirstStatementOnly | pydocstring/formatters/reST.py:39-41 | Only the first return statement matters |
| LegacyReST.RaisesRoundTrip | pydocstring/formatters/reST.py:48-49 | Splitting the `", "`-joined names on commas and dropping one leading space gives the exceptions back, when no name holds a comma |
| LegacyReST.ClassDocstring | pydocstring/formatters/reST.py:55-80 | Framed by newlines; `"\n\n"` exactly without attributes |
| LegacyReST.ClassReadsBack | pydocstring/formatters/reST.py:68-80 | Reading back gives an `:attr`/`:type` pair per attribute, in order |
| LegacyReST.ModuleDocstring | pydocstring/formatters/reST.py:83-108 | Identical to the class docstring |
| LegacyReST.ParamsExample | pydocstring/formatters/reST.py:23-32 | The three-parameter case with `:type p1: TYPE` and ``default: ``2`` `` |
| LegacyReST.ReturnTypeExample | pydocstring/formatters/reST.py:37-46 | A return type alone gives `:returns: ` and `:rtype: int` |
| LegacyReST.ReturnTypeAndStatementExample | pydocstring/formatters/reST.py:37-46 | A type and statement give `:returns: var1` and `:rtype: int` |
| LegacyReST.YieldExample | pydocstring/formatters/reST.py:39-46 | An untyped yield gives `:yields: var1` and `:rtype: TYPE` |
| LegacyReST.ExceptionExample | pydocstring/formatters/reST.py:48-49 | An exception gives `:raises: MyException` |
| LegacyReST.AttributesExample | pydocstring/formatters/reST.py:70-77 | Untyped and typed attributes give `:attr`/`:type` pairs with `TYPE` and `int` |
| Formatters.Get | pydocstring/formatters/__init__.py:12-17 | Succeeds exactly when the lower-cased name is `google`, `numpy` or `rest`, giving the registered formatter; otherwise `InvalidFormatterError` with the name, ASCII capitals lowered |
| Formatters.GetIgnoresCase | pydocstring/formatters/__init__.py:14 | Any ASCII capitalisation finds what the lower-case name finds |
| Formatters.MixedCaseNames | pydocstring/formatters/__init__.py:12-17 | `reST` and `Google` find the reST and Google formatters |
| Formatters.FunctionDocstring | pydocstring/formatters/__init__.py:6-10 | `function_docstring` on the module the name maps to: the Google, Numpy or reST writer, framed by newlines |
| Formatters.FunctionReadsBack | pydocstring/formatters/__init__.py:6-10 | Whichever formatter is chosen, a docstring whose inputs hold no newline reads back line by line as that formatter's lines |
| Formatters.ClassDocstring | pydocstring/formatters/__init__.py:6-10 | The Google formatter has no `class_docstring` (an `AttributeError`); the others give a newline-framed docstring |
| Formatters.ModuleDocstring | pydocstring/formatters/__init__.py:6-10 | Likewise for `module_docstring`, which equals the class docstring |
| Formatters.NoFactsAnyFormatter | pydocstring/formatters/__init__.py:6-10 | Every registered formatter writes `"\n\n"` without facts |
| Text.Lower | pydocstring/formatters/__init__.py:14 | Same length, with each ASCII capital replaced by its lower-case letter and every other character kept |
| Text.LowerIdempotent | pydocstring/formatters/__init__.py:14 | Lower-casing twice is lower-casing once |
| Text.Normalize | pydocstring/ingest/unpack_parso.py:46 | `" ".join(s.split())`: normalised and one line |
| Text.NormalizeKeepsWords | pydocstring/ingest/unpack_parso.py:46 | The words survive normalisation |
| Text.NormalizeIdempotent | pydocstring/ingest/unpack_parso.py:46 | Normalising twice is normalising once |
| Text.WordsJoinRoundTrip | pydocstring/ingest/unpack_parso.py:46 | Splitting space-joined words gives the words back |
| Text.Strip | pydocstring/ingest/unpack_parso.py:93 | A slice of the input, whitespace only outside it, no whitespace at its ends |
| SyntaxTree.Value | pydocstring/ingest/unpack_parso.py:95 | `.value` exists exactly on leaves; otherwise an `AttributeError` |
| SyntaxTree.Rhs | pydocstring/ingest/unpack_parso.py:93 | The last child of a non-empty statement. An `annassign` last child gives its value when it has four children, else its type. A leaf fails with `AttributeError` and an empty statement with `IndexError` |
| SyntaxTree.PlainAssignmentRhs | pydocstring/ingest/unpack_parso.py:93 | `x = v` gives `v` |
| SyntaxTree.AnnotatedAssignmentRhs | pydocstring/ingest/unpack_parso.py:93 | `x: T = v` gives `v` |
| SyntaxTree.BareAnnotationRhs | pydocstring/ingest/unpack_parso.py:93 | `x: T` gives `T` |

## Findings

| source | as written | input that shows it | evidently intended | confidence | as-written member | corrected member |
|---|---|---|---|---|---|---|
| pydocstring/document.py:199 | `len(next_decl)` measures the `(start, end)` pair, always 2. The next declaration's indentation is therefore never positive, so `get_block` stops at the very next declaration, even one nested deeper. The loop never advances `position`, so it could not walk past a deeper one anyway | source `"class A:\n    def f(self):\n        pass\n"`, cursor 5: the block is `(0, 9)`, ending at the method | measure `next_decl_text` and walk on to the next declaration at the same or a shallower level; here the block is `(0, 39)`, the end of the file | not executed | Document.GetBlockAsWritten | Document.GetBlock |

## Left out

- ParseUtils.ReturnMatch, ParseUtils.ParseReturnKeyword, ParseUtils.Assignment, ParseUtils.ClassAttrMatch: the regular expressions of `parse_utils.py` are modelled as line-level recognisers. Where `\s` could match across a newline (`\s*(.*)` after `return`, `\s*=\s*` in attribute patterns), the model stays on one line. For a bare `return` followed by a code line, Python's pattern at parse_utils.py:96 gives `("return", <the next line>)`; the model gives `("return", "")`.
- `str.splitlines` is modelled as splitting on `"\n"` only. The other line separators it honours are not modelled.
- UnpackParso.UnpackParam, LegacyFormatUtils.GetParamInfo: `safe_determine_type` is the oracle `infer`, which always answers a type name. An exception escaping it is not modelled, such as the `SyntaxError` that a dict default with a non-literal value (`{"k": CONST}`) raises once its braces are rewritten to brackets. Its answer is always a string, so a `None` return of `safe_determine_type` is not modelled either. So `unpack_param`, `get_param_info` and the class docstring never fail there in the model.
- `ast.literal_eval` in `parse_function_declaration` is the oracle `eval`, whose answer may be an escaping exception. Which expressions are literals, and which exception a non-literal raises, is up to that oracle. The set-literal fallback is modelled: on Python 3 it always raises at `itertools.izip`.
- The declaration, comment and string regexes of `document.py` are not modelled. Their match ranges are inputs, in document order.
- SyntaxTree.Rhs follows the current parso `get_rhs`, which unwraps an `annassign` node. Early releases within the `parso>=0.1.1` range return the last child unchanged. For `x: int = 3` those releases give the code `: int = 3` instead of `3`.
- Text.Lower lowers only ASCII `A`-`Z`. Python's `str.lower` lowers every cased character and can change the length, as `'İ'` does.
- Formatters.Get: the success set is exact, because no non-ASCII character lowers to a letter of `google`, `numpy` or `rest`. For a name with non-ASCII capitals, the name carried by `InvalidFormatterError` can differ from Python's.
- The parso parser is not modelled. Its trees are the `SyntaxTree` datatypes, and `iter_return_stmts`, `iter_yield_exprs` and `iter_raise_stmts` are given as node lists.
- `set` iteration order is arbitrary in Python. The lists built from sets are modelled in first-seen order, and the contracts state only "no duplicates, same elements".
- Where the source passes `None` for a collection, the formatters take the empty sequence.
- The command line, `formatter.py` (which merges the text-layer results into formatter calls), `ingest/ingest_source.py`, `pydocstring/__init__.py` and file I/O are not part of this model.
- ParseUtils.ReturnType: the group is read up to the last `:` on the arrow's line. The pattern's `\s*:` could also reach a colon that opens the following line; that case is not modelled.
- The tests' positions are given as `(line, column)` and converted by code outside the core. The model works on character offsets.
- Some tests expect what the code does not write.
  - The Google tests expect `p1 (TYPE):` for an untyped parameter. The code writes no type, and `LegacyGoogle.ParamsExample` follows the code.
  - The Google class and module tests call functions that `formatters/google.py` does not define; `Formatters.ClassDocstring` gives the `AttributeError`.
- DocstringFormatter.FunctionLayersAgree covers only "plain" functions: no starred parameters, no default with empty code, and no empty annotation. `LegacyFormatUtils.EmptyDefaultDiffers` and `DocstringFormatter.StarLineInPlace` pin how the two routes differ outside that case.
- UnpackParso.UnpackReturn states the expression through its words and normalisation, not as the literal concatenation of each child's stripped code.
- Document.GetBlockAsWritten models the endless loop as a `Diverges` failure rather than non-termination.
