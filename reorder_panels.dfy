/**
 * The panel-restructuring script: it cuts balanced `<div class="group-box">` regions out of an
 * HTML page, finds the button group and the input panel, and splices a two-column layout into
 * the input panel between an untouched prefix and an untouched suffix.
 */
module ReorderPanels {
  import opened JsText
  import opened JsNumber

  const GroupBox := "<div class=\"group-box\">"
  const DivOpen := "<div"
  const DivClose := "</div>"

  function H3Marker(title: string): string { "<h3>" + title + "</h3>" }

  /** Python `s.find(p, from)`: the first occurrence at or after `from`, or -1. */
  function Find(s: string, p: string, from: nat): (k: int)
    ensures k == -1 || (from <= k && OccursAt(s, p, k))
    ensures k == -1 ==> forall j :: from <= j ==> !OccursAt(s, p, j)
    ensures k != -1 ==> forall j :: from <= j < k ==> !OccursAt(s, p, j)
    decreases |s| - from
  {
    if from + |p| > |s| then -1
    else if OccursAt(s, p, from) then from
    else Find(s, p, from + 1)
  }

  /** Python `s.rfind(p, lo, hi)` for `hi <= |s|`: the last occurrence lying wholly inside `[lo, hi)`, or -1. */
  function RFind(s: string, p: string, lo: nat, hi: int): (k: int)
    requires hi <= |s|
    ensures k == -1 || (lo <= k && k + |p| <= hi && OccursAt(s, p, k))
    ensures k == -1 ==> forall j :: lo <= j && j + |p| <= hi ==> !OccursAt(s, p, j)
    ensures k != -1 ==> forall j :: k < j && j + |p| <= hi ==> !OccursAt(s, p, j)
    decreases hi + 1
  {
    if hi < lo + |p| then -1
    else if OccursAt(s, p, hi - |p|) then hi - |p|
    else RFind(s, p, lo, hi - 1)
  }

  lemma {:induction false} SliceStartsWith(s: string, p: string, t: nat)
    requires t <= |s|
    ensures StartsWith(s[t..], p) <==> OccursAt(s, p, t)
  {
    if t + |p| <= |s| {
      assert s[t..][..|p|] == s[t..t + |p|];
    }
  }

  // ---------------------------------------------------------------------------------------------
  // The depth-counting scan of extract_panel_html
  // ---------------------------------------------------------------------------------------------

  /**
   * The scan from index `i` with `d` open divisions: `<div` raises the depth and skips 4,
   * `</div>` lowers it and skips 6, anything else skips 1. The result is the index just after
   * the `</div>` that brings the depth to 0, or `None` when the text ends first.
   */
  function Scan(s: string, i: nat, d: int): Option<nat>
    decreases |s| - i
  {
    if i >= |s| then None
    else if OccursAt(s, DivOpen, i) then Scan(s, i + 4, d + 1)
    else if OccursAt(s, DivClose, i) then (if d - 1 == 0 then Some(i + 6) else Scan(s, i + 6, d - 1))
    else Scan(s, i + 1, d)
  }

  /** Number of occurrences of `p` that start at an index in `[a, k)`. */
  function CountIn(s: string, p: string, a: nat, k: nat): nat
    requires a <= k
    decreases k - a
  {
    if k == a then 0 else CountIn(s, p, a, k - 1) + (if OccursAt(s, p, k - 1) then 1 else 0)
  }

  /** Open minus closed divisions among the tokens starting in `[a, k)`. */
  function DepthIn(s: string, a: nat, k: nat): int
    requires a <= k
  {
    CountIn(s, DivOpen, a, k) - CountIn(s, DivClose, a, k)
  }

  /** The depth of the prefix `r[..k]` of a region. */
  function Depth(r: string, k: nat): int
  {
    DepthIn(r, 0, k)
  }

  /**
   * A balanced region: as many `<div` as `</div>` tokens, and every prefix that ends before
   * the final `</div>` has strictly more of the first.
   */
  predicate Balanced(r: string) {
    |r| >= 6 && Depth(r, |r|) == 0 && forall k :: 0 < k <= |r| - 6 ==> Depth(r, k) >= 1
  }

  /** What extract_panel_html returns on success: a balanced group box. */
  predicate IsPanel(r: string) {
    StartsWith(r, GroupBox) && EndsWith(r, DivClose) && Balanced(r)
  }

  lemma {:induction false} NoTokenAt(s: string, j: nat)
    requires j < |s| && s[j] != '<'
    ensures !OccursAt(s, DivOpen, j) && !OccursAt(s, DivClose, j)
  {
    assert j + 4 <= |s| ==> s[j..j + 4][0] == s[j];
    assert j + 6 <= |s| ==> s[j..j + 6][0] == s[j];
  }

  /** A character other than `<` starts no token, so the depth does not change across it. */
  lemma {:induction false} Step(s: string, a: nat, j: nat)
    requires a <= j < |s| && s[j] != '<'
    ensures DepthIn(s, a, j + 1) == DepthIn(s, a, j)
  {
    NoTokenAt(s, j);
  }

  /** After a `<div` at `i` the depth is one more at every index up to `i + 4`. */
  lemma {:induction false} AfterOpen(s: string, a: nat, i: nat)
    requires a <= i && OccursAt(s, DivOpen, i)
    ensures forall k :: i < k <= i + 4 ==> DepthIn(s, a, k) == DepthIn(s, a, i) + 1
  {
    var w := s[i..i + 4];
    assert w == DivOpen;
    assert s[i + 1] == w[1] && s[i + 2] == w[2] && s[i + 3] == w[3];
    assert !OccursAt(s, DivClose, i) by { assert i + 6 <= |s| ==> s[i..i + 6][1] == w[1]; }
    var d := DepthIn(s, a, i);
    assert DepthIn(s, a, i + 1) == d + 1;
    Step(s, a, i + 1);
    Step(s, a, i + 2);
    Step(s, a, i + 3);
    forall k | i < k <= i + 4 ensures DepthIn(s, a, k) == d + 1 {
      if k == i + 1 {} else if k == i + 2 {} else if k == i + 3 {} else {}
    }
  }

  /** After a `</div>` at `i` the depth is one less at every index up to `i + 6`. */
  lemma {:induction false} AfterClose(s: string, a: nat, i: nat)
    requires a <= i && OccursAt(s, DivClose, i)
    ensures forall k :: i < k <= i + 6 ==> DepthIn(s, a, k) == DepthIn(s, a, i) - 1
  {
    var w := s[i..i + 6];
    assert w == DivClose;
    assert s[i + 1] == w[1] && s[i + 2] == w[2] && s[i + 3] == w[3] && s[i + 4] == w[4] && s[i + 5] == w[5];
    assert !OccursAt(s, DivOpen, i) by { assert s[i..i + 4][1] == w[1]; }
    var d := DepthIn(s, a, i);
    assert DepthIn(s, a, i + 1) == d - 1;
    Step(s, a, i + 1);
    Step(s, a, i + 2);
    Step(s, a, i + 3);
    Step(s, a, i + 4);
    Step(s, a, i + 5);
    forall k | i < k <= i + 6 ensures DepthIn(s, a, k) == d - 1 {
      if k == i + 1 {} else if k == i + 2 {} else if k == i + 3 {} else if k == i + 4 {} else if k == i + 5 {} else {}
    }
  }

  /** The five characters after the `<` of a `</div>` start no token. */
  lemma {:induction false} CloseTail(s: string, e: nat)
    requires e >= 6 && OccursAt(s, DivClose, e - 6)
    ensures forall m :: e - 5 <= m < e ==> s[m] != '<'
  {
    var w := s[e - 6..e];
    assert w == DivClose;
    forall m | e - 5 <= m < e ensures s[m] != '<' {
      assert s[m] == w[m - (e - 6)];
    }
  }

  predicate ScanEndsWell(s: string, a: nat, i: nat, e: nat)
    requires a <= i
  {
    i + 6 <= e <= |s| && OccursAt(s, DivClose, e - 6) && DepthIn(s, a, e) == 0
    && forall k :: i < k <= e - 6 ==> DepthIn(s, a, k) >= 1
  }

  /** The scan invariant: while the depth is positive it stays positive, and the scan stops at the first 0. */
  lemma {:induction false} ScanDepth(s: string, a: nat, i: nat, d: int)
    requires a <= i && d >= 1 && DepthIn(s, a, i) == d
    ensures Scan(s, i, d).Some? ==> ScanEndsWell(s, a, i, Scan(s, i, d).value)
    decreases |s| - i, 1
  {
    if i >= |s| {
    } else if OccursAt(s, DivOpen, i) {
      ScanDepthOpen(s, a, i, d);
    } else if OccursAt(s, DivClose, i) {
      ScanDepthClose(s, a, i, d);
    } else {
      assert DepthIn(s, a, i + 1) == d;
      assert Scan(s, i, d) == Scan(s, i + 1, d);
      ScanDepth(s, a, i + 1, d);
      ScanExtend(s, a, i, i + 1, d, d);
    }
  }

  lemma {:induction false} ScanDepthOpen(s: string, a: nat, i: nat, d: int)
    requires a <= i < |s| && d >= 1 && DepthIn(s, a, i) == d && OccursAt(s, DivOpen, i)
    ensures Scan(s, i, d).Some? ==> ScanEndsWell(s, a, i, Scan(s, i, d).value)
    decreases |s| - i, 0
  {
    AfterOpen(s, a, i);
    assert Scan(s, i, d) == Scan(s, i + 4, d + 1);
    ScanDepth(s, a, i + 4, d + 1);
    ScanExtend(s, a, i, i + 4, d, d + 1);
  }

  lemma {:induction false} ScanDepthClose(s: string, a: nat, i: nat, d: int)
    requires a <= i < |s| && d >= 1 && DepthIn(s, a, i) == d && OccursAt(s, DivClose, i)
    ensures Scan(s, i, d).Some? ==> ScanEndsWell(s, a, i, Scan(s, i, d).value)
    decreases |s| - i, 0
  {
    AfterClose(s, a, i);
    assert !OccursAt(s, DivOpen, i) by { assert s[i..i + 4][1] == s[i..i + 6][1]; }
    if d - 1 != 0 {
      assert Scan(s, i, d) == Scan(s, i + 6, d - 1);
      ScanDepth(s, a, i + 6, d - 1);
      ScanExtend(s, a, i, i + 6, d, d - 1);
    } else {
      assert Scan(s, i, d) == Some(i + 6);
    }
  }

  /** One scan step from `i` to `j` that keeps the depth positive extends what the scan from `j` knows. */
  lemma {:induction false} ScanExtend(s: string, a: nat, i: nat, j: nat, d: int, d': int)
    requires a <= i < j && Scan(s, i, d) == Scan(s, j, d')
    requires forall k :: i < k <= j ==> DepthIn(s, a, k) >= 1
    requires Scan(s, j, d').Some? ==> ScanEndsWell(s, a, j, Scan(s, j, d').value)
    ensures Scan(s, i, d).Some? ==> ScanEndsWell(s, a, i, Scan(s, i, d).value)
  {
    if Scan(s, j, d').Some? {
      EndsWellExtend(s, a, i, j, Scan(s, j, d').value);
    }
  }

  lemma {:induction false} EndsWellExtend(s: string, a: nat, i: nat, j: nat, e: nat)
    requires a <= i <= j && ScanEndsWell(s, a, j, e)
    requires forall k :: i < k <= j ==> DepthIn(s, a, k) >= 1
    ensures ScanEndsWell(s, a, i, e)
  {
  }

  /** A token occurs at `j` in the region `s[a..e]` exactly when it occurs at `a + j` in `s`. */
  lemma {:induction false} OccursShift(s: string, p: string, a: nat, e: nat, j: nat)
    requires a + 6 <= e <= |s| && OccursAt(s, DivClose, e - 6)
    requires (p == DivOpen || p == DivClose) && j < e - a
    ensures OccursAt(s[a..e], p, j) <==> OccursAt(s, p, a + j)
  {
    var r := s[a..e];
    if j + |p| <= |r| {
      assert r[j..j + |p|] == s[a + j..a + j + |p|];
    } else {
      CloseTail(s, e);
      NoTokenAt(s, a + j);
    }
  }

  /** Counting in the region `s[a..e]` agrees with counting in `s` from `a`. */
  lemma {:induction false} CountShift(s: string, p: string, a: nat, e: nat, k: nat)
    requires a + 6 <= e <= |s| && OccursAt(s, DivClose, e - 6)
    requires p == DivOpen || p == DivClose
    requires k <= e - a
    ensures CountIn(s[a..e], p, 0, k) == CountIn(s, p, a, a + k)
  {
    if k > 0 {
      CountShift(s, p, a, e, k - 1);
      OccursShift(s, p, a, e, k - 1);
    }
  }

  lemma {:induction false} RegionDepth(s: string, a: nat, e: nat)
    requires a + 6 <= e <= |s| && OccursAt(s, DivClose, e - 6)
    ensures forall k :: 0 <= k <= e - a ==> Depth(s[a..e], k) == DepthIn(s, a, a + k)
  {
    forall k | 0 <= k <= e - a ensures Depth(s[a..e], k) == DepthIn(s, a, a + k) {
      CountShift(s, DivOpen, a, e, k);
      CountShift(s, DivClose, a, e, k);
    }
  }

  /** Only the first character of `<div class="group-box">` is a `<`. */
  lemma {:induction false} GroupBoxShape(s: string, a: nat)
    requires OccursAt(s, GroupBox, a)
    ensures OccursAt(s, DivOpen, a)
    ensures forall m :: a < m < a + |GroupBox| ==> s[m] != '<'
  {
    var w := s[a..a + 23];
    assert w == GroupBox;
    assert s[a..a + 4] == w[..4];
    forall m | a < m < a + 23 ensures s[m] != '<' {
      assert s[m] == w[m - a];
    }
  }

  /** The region cut out by the scan from a `<div class="group-box">` is a balanced group box. */
  lemma {:induction false} ScanRegion(s: string, a: nat)
    requires OccursAt(s, GroupBox, a)
    ensures Scan(s, a, 0).Some? ==>
      var e := Scan(s, a, 0).value;
      a + |GroupBox| + 6 <= e <= |s| && IsPanel(s[a..e])
  {
    GroupBoxShape(s, a);
    assert Scan(s, a, 0) == Scan(s, a + 4, 1);
    AfterOpen(s, a, a);
    ScanDepth(s, a, a + 4, 1);
    if Scan(s, a, 0).Some? {
      var e := Scan(s, a, 0).value;
      assert ScanEndsWell(s, a, a + 4, e);
      PanelFacts(s, a, e);
    }
  }

  lemma {:induction false} PanelFacts(s: string, a: nat, e: nat)
    requires OccursAt(s, GroupBox, a) && a + 4 <= e
    requires ScanEndsWell(s, a, a + 4, e)
    requires forall k :: a < k <= a + 4 ==> DepthIn(s, a, k) == 1
    ensures a + |GroupBox| + 6 <= e && IsPanel(s[a..e])
  {
    GroupBoxShape(s, a);
    var r := s[a..e];
    assert s[e - 6] == '<' by { assert s[e - 6..e][0] == s[e - 6]; }
    assert a + 23 <= e - 6;
    assert StartsWith(r, GroupBox) by { assert r[..23] == s[a..a + 23]; }
    assert EndsWith(r, DivClose) by { assert r[|r| - 6..] == s[e - 6..e]; }
    RegionDepth(s, a, e);
    assert Depth(r, |r|) == 0;
    forall k | 0 < k <= |r| - 6 ensures Depth(r, k) >= 1 {
      assert Depth(r, k) == DepthIn(s, a, a + k);
    }
  }

  /**
   * extract_panel_html: the first `<h3>title</h3>`, the nearest `<div class="group-box">`
   * lying wholly before it, and the depth-counting scan from there. Failure is `(None, -1, -1)`.
   */
  method ExtractPanelHtml(content: string, title: string) returns (html: Option<string>, start: int, end: int)
    ensures html.None? ==> start == -1 && end == -1
    ensures Find(content, H3Marker(title), 0) == -1 ==> html.None?
    ensures html.Some? ==>
      var h3 := Find(content, H3Marker(title), 0);
      h3 >= 0 && 0 <= start && start + |GroupBox| <= h3 && OccursAt(content, GroupBox, start)
      && (forall j :: start < j && j + |GroupBox| <= h3 ==> !OccursAt(content, GroupBox, j))
      && start < end <= |content| && html.value == content[start..end] && IsPanel(html.value)
      && Scan(content, start, 0) == Some(end)
    ensures html.None? && Find(content, H3Marker(title), 0) >= 0 ==>
      var ps := RFind(content, GroupBox, 0, Find(content, H3Marker(title), 0));
      ps == -1 || Scan(content, ps, 0).None?
  {
    var h3 := Find(content, H3Marker(title), 0);
    if h3 == -1 {
      return None, -1, -1;
    }
    var ps := RFind(content, GroupBox, 0, h3);
    if ps == -1 {
      return None, -1, -1;
    }
    var panelEnd := CountDivs(content, ps);
    if panelEnd == -1 {
      return None, -1, -1;
    }
    ExtractedRegion(content, title, h3, ps, panelEnd);
    html, start, end := Some(content[ps..panelEnd]), ps, panelEnd;
  }

  /**
   * The depth-counting loop of extract_panel_html, from `ps`: the index just after the
   * `</div>` that closes the division opened there, or -1.
   */
  method CountDivs(content: string, ps: nat) returns (panelEnd: int)
    requires ps <= |content|
    ensures panelEnd == -1 <==> Scan(content, ps, 0).None?
    ensures panelEnd != -1 ==> Scan(content, ps, 0) == Some(panelEnd)
  {
    var openDivs := 0;
    panelEnd := -1;
    var t: nat := ps;
    while t < |content|
      invariant t <= |content|
      invariant panelEnd == -1
      invariant Scan(content, t, openDivs) == Scan(content, ps, 0)
      decreases |content| - t
    {
      SliceStartsWith(content, DivOpen, t);
      SliceStartsWith(content, DivClose, t);
      if StartsWith(content[t..], DivOpen) {
        openDivs := openDivs + 1;
        t := t + 4;
        continue;
      } else if StartsWith(content[t..], DivClose) {
        openDivs := openDivs - 1;
        t := t + 6;
        if openDivs == 0 {
          panelEnd := t;
          break;
        }
      } else {
        t := t + 1;
      }
    }
    if panelEnd == -1 {
      assert Scan(content, t, openDivs).None?;
    }
  }

  /** What a successful extraction knows about its region. */
  lemma {:induction false} ExtractedRegion(content: string, title: string, h3: nat, ps: nat, e: nat)
    requires h3 == Find(content, H3Marker(title), 0)
    requires ps == RFind(content, GroupBox, 0, h3)
    requires Scan(content, ps, 0) == Some(e)
    ensures 0 <= ps && ps + |GroupBox| <= h3 && OccursAt(content, GroupBox, ps)
    ensures forall j :: ps < j && j + |GroupBox| <= h3 ==> !OccursAt(content, GroupBox, j)
    ensures ps < e <= |content| && IsPanel(content[ps..e])
  {
    ScanRegion(content, ps);
  }

  // ---------------------------------------------------------------------------------------------
  // The extraction loop
  // ---------------------------------------------------------------------------------------------

  /** The six panels, in extraction order: dictionary key and `<h3>` title. */
  const PanelOrder: seq<(string, string)> := [
    ("dados_empresa", "Dados da Empresa"),
    ("dados_financeiros", "Dados Financeiros"),
    ("sistema_tributario", "Sistema Tributário Atual"),
    ("ciclo_financeiro", "Ciclo Financeiro"),
    ("iva_dual", "Sistema IVA Dual e Split Payment"),
    ("parametros_simulacao", "Parâmetros da Simulação")
  ]

  function ExtractedComment(key: string): string { "<!-- EXTRACTED PANEL " + key + " -->" }

  /** The working text after one extraction: `[start, end)` replaced by `marker`. */
  function Excise(t: string, start: nat, end: nat, marker: string): (r: string)
    requires start <= end <= |t|
    ensures |r| == |t| - (end - start) + |marker|
    ensures r[..start] == t[..start]
    ensures r[start..start + |marker|] == marker
    ensures r[start + |marker|..] == t[end..]
  {
    t[..start] + marker + t[end..]
  }

  /**
   * The extraction loop: each panel is extracted from the current working text and replaced
   * there by a comment; the first panel that cannot be extracted stops the loop with its title.
   */
  method ExtractPanels(html: string, order: seq<(string, string)>)
    returns (panels: map<string, string>, working: string, failed: Option<string>)
    ensures forall k :: k in panels ==> IsPanel(panels[k])
    ensures forall k :: k in panels ==> exists i :: 0 <= i < |order| && order[i].0 == k
    ensures failed.None? ==> forall i :: 0 <= i < |order| ==> order[i].0 in panels
    ensures failed.Some? ==> exists i :: 0 <= i < |order| && order[i].1 == failed.value
  {
    panels := map[];
    working := html;
    var i := 0;
    while i < |order|
      invariant 0 <= i <= |order|
      invariant forall k :: k in panels ==> IsPanel(panels[k])
      invariant forall k :: k in panels ==> exists j :: 0 <= j < i && order[j].0 == k
      invariant forall j :: 0 <= j < i ==> order[j].0 in panels
    {
      var (key, title) := order[i];
      var panelHtml, s, e := ExtractPanelHtml(working, title);
      if panelHtml.Some? && |panelHtml.value| > 0 {
        panels := panels[key := panelHtml.value];
        working := Excise(working, s, e, ExtractedComment(key));
      } else {
        return panels, working, Some(title);
      }
      i := i + 1;
    }
    failed := None;
  }

  // ---------------------------------------------------------------------------------------------
  // Button group, main panel and indentation
  // ---------------------------------------------------------------------------------------------

  datatype Failure =
    | PanelNotExtracted(title: string)
    | ButtonMarkerMissing | ButtonDivMissing | ButtonEndMissing
    | MainMarkerMissing | MainDivMissing | InputsEndMissing | MainCloseMissing
    | FirstPanelH3Missing | FirstPanelBoxMissing

  datatype Result<T> = Ok(value: T) | Err(failure: Failure)

  const ButtonMarker := "<!-- Para estas duas linhas (adicionando um container para os botões) -->"
  const ButtonDiv := "<div class=\"button-group\""

  /**
   * The button group: from the first `<div class="button-group"` after the marker comment to
   * the first `</div>` after that, without counting nested divisions.
   */
  function ButtonGroup(html: string): (r: Result<(nat, nat)>)
    ensures r.Ok? ==>
      var (b, e) := r.value;
      var m := Find(html, ButtonMarker, 0);
      m >= 0 && b == Find(html, ButtonDiv, m) && OccursAt(html, ButtonDiv, b)
      && b + 6 <= e <= |html| && OccursAt(html, DivClose, e - 6)
      && (forall j :: b <= j < e - 6 ==> !OccursAt(html, DivClose, j))
    ensures r.Err? ==> r.failure in {ButtonMarkerMissing, ButtonDivMissing, ButtonEndMissing}
    ensures var m := Find(html, ButtonMarker, 0);
      (r == Err(ButtonMarkerMissing) <==> m == -1)
      && (m >= 0 ==> var b := Find(html, ButtonDiv, m);
            (r == Err(ButtonDivMissing) <==> b == -1)
            && (b >= 0 ==> (r == Err(ButtonEndMissing) <==> Find(html, DivClose, b) == -1)))
  {
    var m := Find(html, ButtonMarker, 0);
    if m == -1 then Err(ButtonMarkerMissing)
    else
      var b := Find(html, ButtonDiv, m);
      if b == -1 then Err(ButtonDivMissing)
      else
        var c := Find(html, DivClose, b);
        if c == -1 then Err(ButtonEndMissing)
        else Ok((b, c + 6))
  }

  const MainMarker := "<!-- Painel de entrada -->"
  const PanelDiv := "<div class=\"panel\">"
  const InputsEndMarker := "<!-- Coluna Direita - Resultados e Gráficos -->"

  /**
   * The content of the input panel: it starts just after the first `<div class="panel">` that
   * follows the marker comment and ends at the last `</div>` lying wholly between that tag and
   * the right-column comment.
   */
  function MainPanelContent(html: string): (r: Result<(nat, nat)>)
    ensures r.Ok? ==>
      var (cs, ce) := r.value;
      var m := Find(html, MainMarker, 0);
      var ie := Find(html, InputsEndMarker, 0);
      m >= 0 && var ps := Find(html, PanelDiv, m);
      ps >= 0 && ie >= 0 && cs == ps + |PanelDiv| && OccursAt(html, PanelDiv, ps)
      && cs <= ce && ce + 6 <= ie && OccursAt(html, DivClose, ce)
      && (forall j :: ce < j && j + 6 <= ie ==> !OccursAt(html, DivClose, j))
    ensures r.Err? ==> r.failure in {MainMarkerMissing, MainDivMissing, InputsEndMissing, MainCloseMissing}
    ensures var m := Find(html, MainMarker, 0);
      var ie := Find(html, InputsEndMarker, 0);
      (r == Err(MainMarkerMissing) <==> m == -1)
      && (m >= 0 ==> var ps := Find(html, PanelDiv, m);
            (r == Err(MainDivMissing) <==> ps == -1)
            && (ps >= 0 ==>
                  (r == Err(InputsEndMissing) <==> ie == -1)
                  && (ie >= 0 ==> (r == Err(MainCloseMissing) <==> RFind(html, DivClose, ps, ie) == -1))))
  {
    var m := Find(html, MainMarker, 0);
    if m == -1 then Err(MainMarkerMissing)
    else
      var ps := Find(html, PanelDiv, m);
      if ps == -1 then Err(MainDivMissing)
      else
        var ie := Find(html, InputsEndMarker, 0);
        if ie == -1 then Err(InputsEndMissing)
        else
          var ce := RFind(html, DivClose, ps, ie);
          if ce == -1 then Err(MainCloseMissing)
          else
            ClosingAfterPanelTag(html, ps, ce);
            Ok((ps + |PanelDiv|, ce))
  }

  /** A `</div>` at or after the start of `<div class="panel">` cannot begin inside that tag. */
  lemma {:induction false} ClosingAfterPanelTag(html: string, ps: nat, ce: nat)
    requires OccursAt(html, PanelDiv, ps) && OccursAt(html, DivClose, ce) && ps <= ce
    ensures ps + |PanelDiv| <= ce
  {
    var w := html[ps..ps + 19];
    assert w == PanelDiv;
    forall j | ps <= j < ps + 19 ensures !OccursAt(html, DivClose, j) {
      assert html[j] == w[j - ps];
      if j == ps {
        assert html[ps + 1] == w[1];
        assert j + 6 <= |html| ==> html[j..j + 6][1] == html[j + 1];
      } else {
        assert j + 6 <= |html| ==> html[j..j + 6][0] == html[j];
      }
    }
  }

  /** Python's `str.isspace` characters (those `strip()` removes). */
  predicate IsPySpace(c: char) {
    c == ' ' || c == '\t' || c == '\n' || c == '\r' || c == '\U{000B}' || c == '\U{000C}'
    || ('\U{001C}' <= c <= '\U{001F}') || c == '\U{0085}' || c == '\U{00A0}' || c == '\U{1680}'
    || ('\U{2000}' <= c <= '\U{200A}') || c == '\U{2028}' || c == '\U{2029}' || c == '\U{202F}'
    || c == '\U{205F}' || c == '\U{3000}'
  }

  /** `s.strip() == ""`. */
  predicate Blank(s: string) {
    forall i :: 0 <= i < |s| ==> IsPySpace(s[i])
  }

  const DefaultIndentation := "\t\t\t\t\t\t"

  /**
   * Where the line holding index `fs` starts, searching back no further than `cs - 1`: just after the
   * last line feed from there, with no line feed between it and `fs`; 0 when there is no such line feed.
   */
  function LineStart(html: string, cs: nat, fs: nat): (ls: nat)
    requires 1 <= cs <= fs <= |html|
    ensures ls <= fs
    ensures ls > 0 ==> cs <= ls && html[ls - 1] == '\n' && forall j :: ls <= j < fs ==> html[j] != '\n'
    ensures ls == 0 ==> forall j :: cs - 1 <= j < fs ==> html[j] != '\n'
  {
    var k := RFind(html, "\n", cs - 1, fs);
    assert k >= 0 ==> html[k..k + 1] == "\n" && html[k] == html[k..k + 1][0];
    forall j | (if k >= 0 then k + 1 else cs - 1) <= j < fs ensures html[j] != '\n' {
      assert html[j..j + 1][0] == html[j];
      if html[j] == '\n' { assert html[j..j + 1] == "\n"; assert OccursAt(html, "\n", j); }
    }
    k + 1
  }

  /**
   * The indentation of the first panel's line: the text between the last newline before its
   * group box and the group box; the default of six tabs when that text is not blank.
   */
  function Indentation(html: string, cs: nat, ce: nat): (r: Result<string>)
    requires 1 <= cs <= ce <= |html|
    ensures r.Ok? ==> Blank(r.value) && |r.value| <= |html|
    ensures r.Err? ==> r.failure in {FirstPanelH3Missing, FirstPanelBoxMissing}
    ensures var h3 := Find(html, H3Marker(PanelOrder[0].1), cs);
      (r == Err(FirstPanelH3Missing) <==> h3 == -1 || h3 > ce)
      && (h3 != -1 && h3 <= ce ==>
            var fs := RFind(html, GroupBox, cs, h3);
            (r == Err(FirstPanelBoxMissing) <==> fs == -1)
            && (fs >= 0 ==>
                  r.Ok? && cs <= fs && OccursAt(html, GroupBox, fs)
                  && var ls := LineStart(html, cs, fs);
                  r.value == (if Blank(html[ls..fs]) then html[ls..fs] else DefaultIndentation)))
  {
    var h3 := Find(html, H3Marker(PanelOrder[0].1), cs);
    if h3 == -1 || h3 > ce then Err(FirstPanelH3Missing)
    else
      var fs := RFind(html, GroupBox, cs, h3);
      if fs == -1 || fs < cs then Err(FirstPanelBoxMissing)
      else
        var ls := LineStart(html, cs, fs);
        var ind := html[ls..fs];
        assert |DefaultIndentation| == 6 && forall i :: 0 <= i < 6 ==> DefaultIndentation[i] == '\t';
        Ok(if Blank(ind) then ind else DefaultIndentation)
  }

  // ---------------------------------------------------------------------------------------------
  // Indenting blocks and building the new layout
  // ---------------------------------------------------------------------------------------------

  /** The characters Python's `splitlines` ends a line at (`\r\n` counts once). */
  predicate IsLineBreak(c: char) {
    c == '\n' || c == '\r' || c == '\U{000B}' || c == '\U{000C}' || c == '\U{001C}'
    || c == '\U{001D}' || c == '\U{001E}' || c == '\U{0085}' || c == '\U{2028}' || c == '\U{2029}'
  }

  predicate NoBreak(s: string) { forall i :: 0 <= i < |s| ==> !IsLineBreak(s[i]) }

  function FirstBreak(s: string): (i: nat)
    ensures i <= |s| && (i < |s| ==> IsLineBreak(s[i]))
    ensures forall j :: 0 <= j < i ==> !IsLineBreak(s[j])
  {
    if |s| == 0 || IsLineBreak(s[0]) then 0 else 1 + FirstBreak(s[1..])
  }

  /** Python `s.splitlines()`: no line holds a break, and a final break adds no empty line. */
  function SplitLines(s: string): (lines: seq<string>)
    ensures forall i :: 0 <= i < |lines| ==> NoBreak(lines[i])
    decreases |s|
  {
    if |s| == 0 then []
    else
      var i := FirstBreak(s);
      if i == |s| then [s]
      else
        var w := if s[i] == '\r' && i + 1 < |s| && s[i + 1] == '\n' then 2 else 1;
        [s[..i]] + SplitLines(s[i + w..])
  }

  /** Python `"\n".join(lines)`. */
  function JoinLines(lines: seq<string>): string
  {
    if |lines| == 0 then ""
    else if |lines| == 1 then lines[0]
    else lines[0] + "\n" + JoinLines(lines[1..])
  }

  /** Joining break-free lines whose last one is not empty and splitting again gives them back. */
  lemma {:induction false} SplitJoinLines(lines: seq<string>)
    requires forall i :: 0 <= i < |lines| ==> NoBreak(lines[i])
    requires |lines| > 0 ==> |lines[|lines| - 1]| > 0
    ensures SplitLines(JoinLines(lines)) == lines
    decreases |lines|
  {
    if |lines| == 1 {
      assert FirstBreak(lines[0]) == |lines[0]|;
    } else if |lines| > 1 {
      var x := lines[0];
      var s := JoinLines(lines);
      assert s == x + "\n" + JoinLines(lines[1..]);
      assert FirstBreak(s) == |x| by {
        assert s[|x|] == '\n';
        assert forall j :: 0 <= j < |x| ==> s[j] == x[j];
      }
      assert s[..|x|] == x;
      assert s[|x| + 1..] == JoinLines(lines[1..]);
      SplitJoinLines(lines[1..]);
    }
  }

  function Prefixed(lines: seq<string>, indent: string): (r: seq<string>)
    ensures |r| == |lines| && forall i :: 0 <= i < |lines| ==> r[i] == indent + lines[i]
  {
    seq(|lines|, i requires 0 <= i < |lines| => indent + lines[i])
  }

  /** indent_panel_block: every line of the block prefixed with the indent, joined by newlines. */
  function IndentBlock(block: string, indent: string): string
  {
    JoinLines(Prefixed(SplitLines(block), indent))
  }

  /** Indenting keeps the number of lines and prefixes each one, for a non-empty break-free indent. */
  lemma {:induction false} IndentBlockLines(block: string, indent: string)
    requires |indent| > 0 && NoBreak(indent)
    ensures SplitLines(IndentBlock(block, indent)) == Prefixed(SplitLines(block), indent)
    ensures |SplitLines(IndentBlock(block, indent))| == |SplitLines(block)|
  {
    var p := Prefixed(SplitLines(block), indent);
    forall i | 0 <= i < |p| ensures NoBreak(p[i]) {
      assert forall j :: 0 <= j < |p[i]| ==> p[i][j] == (if j < |indent| then indent[j] else SplitLines(block)[i][j - |indent|]);
    }
    SplitJoinLines(p);
  }

  /** Every key of the extraction order has its panel. */
  predicate HasAllPanels(panels: map<string, string>)
  {
    forall i :: 0 <= i < |PanelOrder| ==> PanelOrder[i].0 in panels
  }

  /** The panels of positions `lo` to `hi` of the extraction order, in that order. */
  function PanelsInOrder(panels: map<string, string>, lo: nat, hi: nat): (r: seq<string>)
    requires HasAllPanels(panels) && lo <= hi <= |PanelOrder|
    ensures |r| == hi - lo && forall k :: 0 <= k < hi - lo ==> r[k] == panels[PanelOrder[lo + k].0]
  {
    seq(hi - lo, k requires 0 <= k < hi - lo => panels[PanelOrder[lo + k].0])
  }

  /** A column's blocks, each indented and ended by a line feed, one after another. */
  function Blocks(blocks: seq<string>, indent: string): string
  {
    if |blocks| == 0 then "" else IndentBlock(blocks[0], indent) + "\n" + Blocks(blocks[1..], indent)
  }

  /** The blocks of two lists one after the other are the list of both. */
  lemma {:induction false} BlocksConcat(a: seq<string>, b: seq<string>, indent: string)
    ensures Blocks(a + b, indent) == Blocks(a, indent) + Blocks(b, indent)
  {
    if |a| > 0 {
      assert (a + b)[1..] == a[1..] + b;
      BlocksConcat(a[1..], b, indent);
    } else {
      assert a + b == b;
    }
  }

  /** Block `i` of a column comes after the blocks before it and before the blocks after it. */
  lemma BlockAt(blocks: seq<string>, i: nat, indent: string)
    requires i < |blocks|
    ensures Blocks(blocks, indent)
      == Blocks(blocks[..i], indent) + IndentBlock(blocks[i], indent) + "\n" + Blocks(blocks[i + 1..], indent)
  {
    assert blocks == blocks[..i] + blocks[i..];
    BlocksConcat(blocks[..i], blocks[i..], indent);
    assert blocks[i..][1..] == blocks[i + 1..];
  }

  /** One column: its comment and its opening div on lines of their own, its blocks, then the closing div. */
  function Column(ind: string, comment: string, opening: string, blocks: seq<string>): string
  {
    ind + comment + "\n" + ind + opening + "\n" + Blocks(blocks, ind + "    ") + ind + "</div>"
  }

  /** Appending is associative. */
  lemma Assoc(a: string, b: string, c: string)
    ensures a + (b + c) == a + b + c
  {
  }

  /** A column's blocks after some text: the text, then each block with its line feed. */
  lemma BlocksAfter(pre: string, blocks: seq<string>, indent: string)
    requires |blocks| > 0
    ensures pre + Blocks(blocks, indent) == pre + IndentBlock(blocks[0], indent) + "\n" + Blocks(blocks[1..], indent)
  {
    var x := IndentBlock(blocks[0], indent);
    Assoc(x, "\n", Blocks(blocks[1..], indent));
    Assoc(pre, x + "\n", Blocks(blocks[1..], indent));
    Assoc(pre, x, "\n");
  }

  /** A column of three blocks, spelled out. */
  lemma ColumnOfThree(ind: string, comment: string, opening: string, a: string, b: string, c: string)
    ensures var inner := ind + "    ";
      Column(ind, comment, opening, [a, b, c])
      == ind + comment + "\n" + ind + opening + "\n"
        + IndentBlock(a, inner) + "\n" + IndentBlock(b, inner) + "\n" + IndentBlock(c, inner) + "\n"
        + ind + "</div>"
  {
    var inner := ind + "    ";
    var pre := ind + comment + "\n" + ind + opening + "\n";
    assert [a, b, c][1..] == [b, c];
    assert [b, c][1..] == [c];
    assert [c][1..] == [];
    BlocksAfter(pre, [a, b, c], inner);
    var p1 := pre + IndentBlock(a, inner) + "\n";
    BlocksAfter(p1, [b, c], inner);
    var p2 := p1 + IndentBlock(b, inner) + "\n";
    BlocksAfter(p2, [c], inner);
    assert pre + Blocks([a, b, c], inner) == p2 + IndentBlock(c, inner) + "\n";
  }

  /** A column of four blocks, spelled out. */
  lemma ColumnOfFour(ind: string, comment: string, opening: string, a: string, b: string, c: string, d: string)
    ensures var inner := ind + "    ";
      Column(ind, comment, opening, [a, b, c, d])
      == ind + comment + "\n" + ind + opening + "\n"
        + IndentBlock(a, inner) + "\n" + IndentBlock(b, inner) + "\n" + IndentBlock(c, inner) + "\n"
        + IndentBlock(d, inner) + "\n"
        + ind + "</div>"
  {
    var inner := ind + "    ";
    var pre := ind + comment + "\n" + ind + opening + "\n";
    assert [a, b, c, d][1..] == [b, c, d];
    assert [b, c, d][1..] == [c, d];
    assert [c, d][1..] == [d];
    assert [d][1..] == [];
    BlocksAfter(pre, [a, b, c, d], inner);
    var p1 := pre + IndentBlock(a, inner) + "\n";
    BlocksAfter(p1, [b, c, d], inner);
    var p2 := p1 + IndentBlock(b, inner) + "\n";
    BlocksAfter(p2, [c, d], inner);
    var p3 := p2 + IndentBlock(c, inner) + "\n";
    BlocksAfter(p3, [d], inner);
    assert pre + Blocks([a, b, c, d], inner) == p3 + IndentBlock(d, inner) + "\n";
  }

  /**
   * The two-column block that replaces the input panel's content: the left column holds the first
   * three panels of the extraction order, the right column the other three and then the button group.
   */
  function NewSection(ind: string, panels: map<string, string>, button: string): (r: string)
    requires HasAllPanels(panels)
    ensures StartsWith(r, "\n" + ind + "<div class=\"two-column-container\">\n")
    ensures EndsWith(r, ind + "</div>\n")
    ensures r == "\n" + ind + "<div class=\"two-column-container\">\n"
      + Column(ind, "<!-- Coluna Esquerda -->", "<div class=\"column-left\">", PanelsInOrder(panels, 0, 3)) + "\n"
      + Column(ind, "<!-- Coluna Direita -->", "<div class=\"column-right\">", PanelsInOrder(panels, 3, 6) + [button])
      + "\n"
      + ind + "</div>\n"
  {
    var inner := ind + "    ";
    var p0, p1, p2 := panels[PanelOrder[0].0], panels[PanelOrder[1].0], panels[PanelOrder[2].0];
    var p3, p4, p5 := panels[PanelOrder[3].0], panels[PanelOrder[4].0], panels[PanelOrder[5].0];
    var left := ind + "<!-- Coluna Esquerda -->" + "\n" + ind + "<div class=\"column-left\">" + "\n"
      + IndentBlock(p0, inner) + "\n"
      + IndentBlock(p1, inner) + "\n"
      + IndentBlock(p2, inner) + "\n"
      + ind + "</div>";
    var right := ind + "<!-- Coluna Direita -->" + "\n" + ind + "<div class=\"column-right\">" + "\n"
      + IndentBlock(p3, inner) + "\n"
      + IndentBlock(p4, inner) + "\n"
      + IndentBlock(p5, inner) + "\n"
      + IndentBlock(button, inner) + "\n"
      + ind + "</div>";
    var head := "\n" + ind + "<div class=\"two-column-container\">\n";
    var tail := ind + "</div>\n";
    var r := head + left + "\n" + right + "\n" + tail;
    assert PanelsInOrder(panels, 0, 3) == [p0, p1, p2];
    assert PanelsInOrder(panels, 3, 6) + [button] == [p3, p4, p5, button];
    assert left == Column(ind, "<!-- Coluna Esquerda -->", "<div class=\"column-left\">", [p0, p1, p2]) by {
      ColumnOfThree(ind, "<!-- Coluna Esquerda -->", "<div class=\"column-left\">", p0, p1, p2);
    }
    assert right == Column(ind, "<!-- Coluna Direita -->", "<div class=\"column-right\">", [p3, p4, p5, button]) by {
      ColumnOfFour(ind, "<!-- Coluna Direita -->", "<div class=\"column-right\">", p3, p4, p5, button);
    }
    assert r[..|head|] == head;
    assert r[|r| - |tail|..] == tail;
    r
  }

  /** The final splice: `html[..cs] + block + html[ce..]`. */
  function Splice(html: string, cs: nat, ce: nat, block: string): (r: string)
    requires cs <= ce <= |html|
    ensures |r| == cs + |block| + (|html| - ce)
    ensures r[..cs] == html[..cs]
    ensures r[cs..cs + |block|] == block
    ensures r[cs + |block|..] == html[ce..]
  {
    html[..cs] + block + html[ce..]
  }

  /** The whole script, from the page read to the page written; every `raise` is an `Err`. */
  method Restructure(html: string) returns (r: Result<string>)
    ensures !(r.Err? && r.failure.PanelNotExtracted?) ==>
      exists panels :: HasAllPanels(panels) && r == Rebuild(html, panels)
    ensures r.Ok? ==>
      MainPanelContent(html).Ok? && (
        var (cs, ce) := MainPanelContent(html).value;
        KeepsAround(html, cs, ce, r.value))
    ensures r.Err? && r.failure.PanelNotExtracted? ==>
      exists i :: 0 <= i < |PanelOrder| && PanelOrder[i].1 == r.failure.title
  {
    var panels, _, failed := ExtractPanels(html, PanelOrder);
    if failed.Some? {
      ghost var i :| 0 <= i < |PanelOrder| && PanelOrder[i].1 == failed.value;
      r := Err(PanelNotExtracted(failed.value));
      assert PanelOrder[i].1 == r.failure.title;
      return;
    }
    r := Rebuild(html, panels);
    assert HasAllPanels(panels) && r == Rebuild(html, panels);
  }

  /**
   * Everything after the extraction: the button group, the input panel's content, its
   * indentation, the new two-column section and the splice.
   */
  function Rebuild(html: string, panels: map<string, string>): (r: Result<string>)
    requires HasAllPanels(panels)
    ensures ButtonGroup(html).Err? ==> r == Err(ButtonGroup(html).failure)
    ensures ButtonGroup(html).Ok? && MainPanelContent(html).Err? ==> r == Err(MainPanelContent(html).failure)
    ensures ButtonGroup(html).Ok? && MainPanelContent(html).Ok? ==>
      var (bs, be) := ButtonGroup(html).value;
      var (cs, ce) := MainPanelContent(html).value;
      var ind := Indentation(html, cs, ce);
      (ind.Err? ==> r == Err(ind.failure))
      && (ind.Ok? ==> r == Ok(Splice(html, cs, ce, NewSection(ind.value, panels, html[bs..be]))))
    ensures r.Ok? ==>
      MainPanelContent(html).Ok? && (
        var (cs, ce) := MainPanelContent(html).value;
        KeepsAround(html, cs, ce, r.value))
  {
    var button := ButtonGroup(html);
    if button.Err? then Err(button.failure)
    else
      var main := MainPanelContent(html);
      if main.Err? then Err(main.failure)
      else
        var (bs, be) := button.value;
        var (cs, ce) := main.value;
        var ind := Indentation(html, cs, ce);
        if ind.Err? then Err(ind.failure)
        else
          var block := NewSection(ind.value, panels, html[bs..be]);
          SpliceKeeps(html, cs, ce, block);
          Ok(Splice(html, cs, ce, block))
  }

  /** `out` begins with the text before `cs` and ends with the text from `ce` on. */
  predicate KeepsAround(html: string, cs: nat, ce: nat, out: string)
  {
    cs <= ce <= |html| && html[..cs] <= out && |out| >= cs + (|html| - ce)
    && out[|out| - (|html| - ce)..] == html[ce..]
  }

  /** The splice keeps the text before `cs` and the text from `ce` on. */
  lemma {:induction false} SpliceKeeps(html: string, cs: nat, ce: nat, block: string)
    requires cs <= ce <= |html|
    ensures KeepsAround(html, cs, ce, Splice(html, cs, ce, block))
  {
    var out := Splice(html, cs, ce, block);
    assert out[..cs] == html[..cs];
    assert out[|out| - (|html| - ce)..] == out[cs + |block|..];
  }
}
