/**
 * The simple visual report designer: a list of elements (text, table, header, footer) that the
 * administrator adds, edits and deletes, and the HTML generated from them. The clock (`now`,
 * used as the new element's id, and the date text) is a parameter; preview and save are the
 * browser and network calls around `GenerateHtml` and are not part of this model.
 */
module ReportDesigner {
  import opened Wrappers
  import opened Js
  import opened SearchModal
  import VisualReports

  datatype ElementType = TextElement | TableElement | HeaderElement | FooterElement

  /** One `key: value` of an element's style object, in insertion order. */
  datatype StyleEntry = StyleEntry(key: string, value: string)

  datatype Element = Element(id: string, kind: ElementType, content: string, style: seq<StyleEntry>)

  const RestrictedMessage := "Acesso restrito a administradores"

  datatype View = Restricted(message: string) | Designer

  /** `user?.isAdmin`: only an administrator gets the designer. */
  function ViewFor(isAdmin: Option<bool>): (v: View)
    ensures v == Designer <==> isAdmin == Some(true)
    ensures v != Designer ==> v == Restricted(RestrictedMessage)
  {
    if isAdmin == Some(true) then Designer else Restricted(RestrictedMessage)
  }

  const TableContent :=
    "\n          <table class=\"data-table\">\n            <thead>\n              <tr>\n" +
    "                <th>Secção</th>\n                <th>Número</th>\n                <th>Cliente</th>\n" +
    "                <th>Artigo</th>\n                <th>Pendente</th>\n                <th>Metros</th>\n" +
    "              </tr>\n            </thead>\n            <tbody>\n              <tr>\n" +
    "                <td>{{SECCAO}}</td>\n                <td>{{NUMERO}}</td>\n                <td>{{CLIENTE}}</td>\n" +
    "                <td>{{ARTIGO}}</td>\n                <td>{{PENDENTE}}</td>\n                <td>{{METROS_PENDENTES}}</td>\n" +
    "              </tr>\n            </tbody>\n          </table>\n        "

  /** `getDefaultContent`. */
  function DefaultContent(kind: ElementType): string
  {
    match kind
    case TextElement => "Clique para editar texto"
    case HeaderElement => "<h1>{{reportTitle}}</h1><p>Gerado em: {{currentDate}}</p>"
    case FooterElement => "<p>Página {{pageNumber}} de {{totalPages}}</p>"
    case TableElement => TableContent
  }

  /** `getDefaultStyle`. */
  function DefaultStyle(kind: ElementType): (style: seq<StyleEntry>)
    ensures kind == TextElement ==> style == [StyleEntry("padding", "10px")]
    ensures kind != TextElement ==> |style| >= 3
  {
    match kind
    case HeaderElement =>
      [StyleEntry("textAlign", "center"), StyleEntry("borderBottom", "2px solid #333"),
       StyleEntry("padding", "20px"), StyleEntry("marginBottom", "20px")]
    case FooterElement =>
      [StyleEntry("textAlign", "center"), StyleEntry("borderTop", "1px solid #ccc"),
       StyleEntry("padding", "15px"), StyleEntry("marginTop", "20px")]
    case TableElement =>
      [StyleEntry("width", "100%"), StyleEntry("borderCollapse", "collapse"), StyleEntry("margin", "20px 0")]
    case TextElement => [StyleEntry("padding", "10px")]
  }

  /** `elements.map(el => el.id === id ? { ...el, content } : el)`. */
  function Updated(elements: seq<Element>, id: string, content: string): (r: seq<Element>)
    ensures |r| == |elements|
    ensures forall i :: 0 <= i < |r| ==>
      r[i] == (if elements[i].id == id then elements[i].(content := content) else elements[i])
  {
    seq(|elements|, i requires 0 <= i < |elements| =>
      if elements[i].id == id then elements[i].(content := content) else elements[i])
  }

  /** Only the content changes: ids, kinds and styles stay where they were. */
  lemma UpdatedKeepsShape(elements: seq<Element>, id: string, content: string)
    ensures forall i :: 0 <= i < |elements| ==>
      var e := Updated(elements, id, content)[i];
      e.id == elements[i].id && e.kind == elements[i].kind && e.style == elements[i].style
  {
  }

  /** `elements.filter(el => el.id !== id)`. */
  function Deleted(elements: seq<Element>, id: string): (r: seq<Element>)
    ensures forall e :: e in r <==> e in elements && e.id != id
  {
    Filter(elements, (e: Element) => e.id != id)
  }

  /** Deleting keeps the other elements in their order. */
  lemma DeletedIsSubsequence(elements: seq<Element>, id: string)
    ensures IsSubsequence(Deleted(elements, id), elements)
  {
    FilterIsSubsequence(elements, (e: Element) => e.id != id);
  }

  /** `key.replace(/([A-Z])/g, '-$1')`. */
  function DashBeforeUpper(key: string): string
  {
    if key == [] then []
    else (if IsUpperAscii(key[0]) then ['-', key[0]] else [key[0]]) + DashBeforeUpper(key[1..])
  }

  /** A style key in kebab case: a '-' before each capital, then lower case. */
  function Kebab(key: string): (k: string)
    ensures forall i :: 0 <= i < |k| ==> !IsUpperAscii(k[i])
  {
    Lower(DashBeforeUpper(key))
  }

  /** The way back: '-' and a lower-case letter become the capital letter. */
  function Camel(s: string): string
  {
    if s == [] then []
    else if |s| >= 2 && s[0] == '-' && IsLowerAscii(s[1]) then [UpperChar(s[1])] + Camel(s[2..])
    else [s[0]] + Camel(s[1..])
  }

  predicate LettersOnly(key: string)
  {
    forall i :: 0 <= i < |key| ==> IsLowerAscii(key[i]) || IsUpperAscii(key[i])
  }

  lemma LowerAppend(a: string, b: string)
    ensures Lower(a + b) == Lower(a) + Lower(b)
  {
    assert forall i :: 0 <= i < |a + b| ==> Lower(a + b)[i] == (Lower(a) + Lower(b))[i];
  }

  /** A camelCase key made of letters comes back from its kebab-case form. */
  lemma {:induction false} KebabRoundTrip(key: string)
    requires LettersOnly(key)
    ensures Camel(Kebab(key)) == key
  {
    if key != [] {
      var c := key[0];
      var rest := key[1..];
      assert LettersOnly(rest) by {
        forall i | 0 <= i < |rest| ensures IsLowerAscii(rest[i]) || IsUpperAscii(rest[i]) {
          assert rest[i] == key[i + 1];
        }
      }
      KebabRoundTrip(rest);
      var k := Kebab(key);
      if IsUpperAscii(c) {
        assert DashBeforeUpper(key) == ['-', c] + DashBeforeUpper(rest);
        LowerAppend(['-', c], DashBeforeUpper(rest));
        assert k == ['-', LowerChar(c)] + Kebab(rest);
        assert k[2..] == Kebab(rest);
        assert IsLowerAscii(k[1]) && UpperChar(k[1]) == c;
        assert Camel(k) == [c] + Camel(k[2..]);
      } else {
        assert DashBeforeUpper(key) == [c] + DashBeforeUpper(rest);
        LowerAppend([c], DashBeforeUpper(rest));
        assert k == [c] + Kebab(rest);
        assert k[1..] == Kebab(rest);
        assert Camel(k) == [c] + Camel(k[1..]);
      }
      assert [c] + rest == key;
    }
  }

  function StyleParts(style: seq<StyleEntry>): (parts: seq<string>)
    ensures |parts| == |style|
    ensures forall i :: 0 <= i < |style| ==> parts[i] == Kebab(style[i].key) + ": " + style[i].value
  {
    seq(|style|, i requires 0 <= i < |style| => Kebab(style[i].key) + ": " + style[i].value)
  }

  /** The inline style: each entry as `kebab-key: value`, joined by '; '. */
  function StyleString(style: seq<StyleEntry>): string
  {
    Join(StyleParts(style), "; ")
  }

  /** The table's sample row. */
  function MockData(s: string): string
  {
    ReplaceAll(ReplaceAll(ReplaceAll(ReplaceAll(ReplaceAll(ReplaceAll(s,
      "{{SECCAO}}", "1"), "{{NUMERO}}", "12345"), "{{CLIENTE}}", "Cliente Exemplo"), "{{ARTIGO}}", "ART001"),
      "{{PENDENTE}}", "5"), "{{METROS_PENDENTES}}", "150.5")
  }

  /**
   * An element's content as generated: the title, date and page placeholders in every element
   * (the same four replacements the server applies), then the sample row for a table only.
   */
  function ProcessedContent(e: Element, reportName: string, date: string): (c: string)
    ensures e.kind != TableElement ==> c == VisualReports.Substitute(e.content, reportName, date)
    ensures e.kind == TableElement ==> c == MockData(VisualReports.Substitute(e.content, reportName, date))
  {
    var s := VisualReports.Substitute(e.content, reportName, date);
    if e.kind == TableElement then MockData(s) else s
  }

  /** No page placeholder survives in a text, header or footer element. */
  lemma NoPagePlaceholdersOutsideTables(e: Element, reportName: string, date: string)
    requires e.kind != TableElement
    ensures !Contains(ProcessedContent(e, reportName, date), VisualReports.PageTag)
    ensures !Contains(ProcessedContent(e, reportName, date), VisualReports.TotalTag)
  {
    VisualReports.NoPagePlaceholdersLeft(e.content, reportName, date);
  }

  function ElementHtml(e: Element, reportName: string, date: string): string
  {
    "<div class=\"element\" style=\"" + StyleString(e.style) + "\">" + ProcessedContent(e, reportName, date) + "</div>"
  }

  function ElementParts(elements: seq<Element>, reportName: string, date: string): (parts: seq<string>)
    ensures |parts| == |elements|
    ensures forall i :: 0 <= i < |elements| ==> parts[i] == ElementHtml(elements[i], reportName, date)
  {
    seq(|elements|, i requires 0 <= i < |elements| => ElementHtml(elements[i], reportName, date))
  }

  /** `generateHTML`: one div per element, in order, joined by newlines. */
  function GenerateHtml(elements: seq<Element>, reportName: string, date: string): string
  {
    Join(ElementParts(elements, reportName, date), "\n")
  }

  /** An element added at the end adds its div after a newline. */
  lemma {:induction false} GenerateHtmlAppend(elements: seq<Element>, e: Element, reportName: string, date: string)
    requires elements != []
    ensures GenerateHtml(elements + [e], reportName, date) ==
      GenerateHtml(elements, reportName, date) + "\n" + ElementHtml(e, reportName, date)
  {
    var parts := ElementParts(elements, reportName, date);
    assert ElementParts(elements + [e], reportName, date) == parts + [ElementHtml(e, reportName, date)];
    JoinAppend(parts, ElementHtml(e, reportName, date), "\n");
  }

  lemma {:induction false} JoinAppend(parts: seq<string>, last: string, sep: string)
    requires parts != []
    ensures Join(parts + [last], sep) == Join(parts, sep) + sep + last
  {
    if |parts| == 1 {
      assert (parts + [last])[1..] == [last];
    } else {
      assert (parts + [last])[1..] == parts[1..] + [last];
      JoinAppend(parts[1..], last, sep);
    }
  }

  class DesignerState {
    var reportName: string
    var elements: seq<Element>
    var selectedElement: Option<string>
    var dataSource: string

    constructor()
      ensures reportName == "Novo Report" && elements == [] && selectedElement == None && dataSource == "producao"
    {
      reportName := "Novo Report";
      elements := [];
      selectedElement := None;
      dataSource := "producao";
    }

    /** `addElement`: one new element at the end, with the type's default content and style. */
    method AddElement(kind: ElementType, now: nat)
      modifies this`elements
      ensures elements == old(elements) + [Element(NatToString(now), kind, DefaultContent(kind), DefaultStyle(kind))]
    {
      elements := elements + [Element(NatToString(now), kind, DefaultContent(kind), DefaultStyle(kind))];
    }

    /** `updateElement`: the content of the elements with that id. */
    method UpdateElement(id: string, content: string)
      modifies this`elements
      ensures elements == Updated(old(elements), id, content)
    {
      elements := Updated(elements, id, content);
    }

    /** `deleteElement`: the elements with that id go; the selection is cleared when it was one of them. */
    method DeleteElement(id: string)
      modifies this`elements, this`selectedElement
      ensures elements == Deleted(old(elements), id)
      ensures old(selectedElement) == Some(id) ==> selectedElement == None
      ensures old(selectedElement) != Some(id) ==> selectedElement == old(selectedElement)
    {
      elements := Deleted(elements, id);
      if selectedElement == Some(id) {
        selectedElement := None;
      }
    }
  }
}
