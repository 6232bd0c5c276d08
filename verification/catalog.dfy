/** The static catalog (app/constants.ts): the option lists, the menu
    templates, the advertised action list, and lookup by name. */
module Catalog {
  import opened Seqs
  import opened Types

  /** The action names advertised to the intent source. */
  const ACTIONS: seq<string> := [
    "start_item", "select_menu", "select_bread", "select_cheese",
    "add_vegetables", "remove_vegetables", "add_sauce", "remove_sauce",
    "set_quantity", "add_to_cart", "modify_cart_item", "remove_from_cart",
    "view_cart", "confirm_order", "complete_order", "cancel_order", "help"]

  const BREAD_OPTIONS: seq<string> := ["위트", "허니오트", "파마산오레가노", "화이트", "플랫브레드"]

  const CHEESE_OPTIONS: seq<string> := ["아메리칸치즈", "슈레드치즈", "모짜렐라치즈"]

  const VEGETABLE_OPTIONS: seq<string> := [
    "양상추", "토마토", "오이", "피망", "양파", "피클", "올리브", "할라피뇨"]

  const SAUCE_OPTIONS: seq<string> := [
    "랜치", "마요네즈", "스위트 어니언", "허니 머스타드", "스위트 칠리",
    "사우스웨스트", "핫 칠리", "올리브오일"]

  /** A named preset of default toppings. */
  datatype MenuTemplate = MenuTemplate(
    name: string,
    defaultBread: string,
    defaultCheese: string,
    defaultVegetables: seq<string>,
    defaultSauces: seq<string>,
    description: string)

  const MENU: seq<MenuTemplate> := [
    MenuTemplate("에그마요", "위트", "아메리칸치즈", ["양상추", "토마토", "오이"], ["마요네즈"],
      "부드러운 계란과 마요네즈"),
    MenuTemplate("이탈리안 비엠티", "위트", "슈레드치즈", ["양상추", "토마토", "양파", "피망"], ["랜치", "올리브오일"],
      "페퍼로니, 살라미, 햄"),
    MenuTemplate("비엘티", "허니오트", "아메리칸치즈", ["양상추", "토마토"], ["랜치", "마요네즈"],
      "베이컨, 양상추, 토마토"),
    MenuTemplate("써브웨이 클럽", "위트", "아메리칸치즈", ["양상추", "토마토", "오이"], ["랜치", "스위트 어니언"],
      "터키, 햄, 베이컨"),
    MenuTemplate("로티세리 바비큐 치킨", "허니오트", "아메리칸치즈", ["양상추", "토마토", "양파"], ["스위트 어니언", "허니 머스타드"],
      "훈제 바비큐 치킨"),
    MenuTemplate("로스트 치킨", "위트", "슈레드치즈", ["양상추", "토마토", "양파", "피망"], ["스위트 칠리", "허니 머스타드"],
      "오븐에 구운 치킨 가슴살"),
    MenuTemplate("참치", "위트", "아메리칸치즈", ["양상추", "토마토", "오이", "양파"], ["마요네즈"],
      "참치와 마요네즈"),
    MenuTemplate("햄", "위트", "아메리칸치즈", ["양상추", "토마토", "피클"], ["허니 머스타드"],
      "슬라이스 햄"),
    MenuTemplate("베지", "허니오트", "슈레드치즈", ["양상추", "토마토", "오이", "피망", "양파", "올리브"], ["랜치", "올리브오일"],
      "신선한 야채 샌드위치"),
    MenuTemplate("스테이크 앤 치즈", "화이트", "아메리칸치즈", ["양상추", "토마토", "피망", "양파"], ["사우스웨스트", "핫 칠리"],
      "스테이크와 치즈")]

  /** Membership test used before a name may enter an order item. */
  function IsValidOption(value: string, options: seq<string>): (b: bool)
    ensures b <==> exists i :: 0 <= i < |options| && options[i] == value
  {
    value in options
  }

  /** A template whose defaults could all have been chosen one by one. */
  predicate TemplateValid(m: MenuTemplate) {
    && m.name != ""
    && m.defaultBread in BREAD_OPTIONS
    && m.defaultCheese in CHEESE_OPTIONS
    && NoDup(m.defaultVegetables)
    && (forall v :: v in m.defaultVegetables ==> v in VEGETABLE_OPTIONS)
    && NoDup(m.defaultSauces)
    && (forall v :: v in m.defaultSauces ==> v in SAUCE_OPTIONS)
  }

  /** No two templates share a name. */
  predicate NamesDistinct(ms: seq<MenuTemplate>) {
    forall i, j :: 0 <= i < j < |ms| ==> ms[i].name != ms[j].name
  }

  /** The first template in `ms` called `name` (`Array.find`). */
  function FindIn(ms: seq<MenuTemplate>, name: string): (r: Option<MenuTemplate>)
    ensures r.Some? ==> r.value in ms && r.value.name == name
    ensures r.None? ==> forall m :: m in ms ==> m.name != name
  {
    if ms == [] then None
    else if ms[0].name == name then Some(ms[0])
    else FindIn(ms[1..], name)
  }

  /** Looks a template up by exact name; an unknown name is never fabricated. */
  function FindMenu(name: string): (r: Option<MenuTemplate>)
    ensures r.Some? ==> r.value in MENU && r.value.name == name
    ensures r.None? ==> forall m :: m in MENU ==> m.name != name
  {
    FindIn(MENU, name)
  }

  /** With distinct names, lookup returns exactly the template of that name. */
  lemma {:induction false} FindInDistinct(ms: seq<MenuTemplate>, m: MenuTemplate)
    requires NamesDistinct(ms)
    requires m in ms
    ensures FindIn(ms, m.name) == Some(m)
  {
    if ms[0] != m {
      assert m in ms[1..] by {
        var k :| 0 <= k < |ms| && ms[k] == m;
        assert k != 0;
        assert ms[1..][k - 1] == m;
      }
      assert ms[0].name != m.name by {
        var k :| 0 <= k < |ms| && ms[k] == m;
        assert k != 0;
      }
      assert NamesDistinct(ms[1..]) by {
        forall i, j | 0 <= i < j < |ms[1..]| ensures ms[1..][i].name != ms[1..][j].name {
          assert ms[1..][i] == ms[i + 1] && ms[1..][j] == ms[j + 1];
        }
      }
      FindInDistinct(ms[1..], m);
    }
  }

  /** Template names are pairwise distinct, so lookup by name is
      deterministic. */
  lemma MenuNamesDistinct()
    ensures NamesDistinct(MENU)
  {
  }

  lemma FindMenuExact(m: MenuTemplate)
    requires m in MENU
    ensures FindMenu(m.name) == Some(m)
  {
    MenuNamesDistinct();
    FindInDistinct(MENU, m);
  }

  /** The four option lists have no repeated entry. */
  lemma OptionListsDistinct()
    ensures NoDup(BREAD_OPTIONS) && NoDup(CHEESE_OPTIONS)
    ensures NoDup(VEGETABLE_OPTIONS) && NoDup(SAUCE_OPTIONS)
  {
  }

  /** Every template's defaults are catalog options without repeats. */
  lemma TemplatesValid()
    ensures forall m :: m in MENU ==> TemplateValid(m)
  {
    forall i | 0 <= i < |MENU| ensures TemplateValid(MENU[i]) {
      if i < 5 {
        FirstTemplatesValid(i);
      } else {
        LastTemplatesValid(i);
      }
    }
  }

  lemma FirstTemplatesValid(i: nat)
    requires i < 5
    ensures TemplateValid(MENU[i])
  {
    if i == 0 {} else if i == 1 {} else if i == 2 {} else if i == 3 {} else {}
  }

  lemma LastTemplatesValid(i: nat)
    requires 5 <= i < |MENU|
    ensures TemplateValid(MENU[i])
  {
    if i == 5 {} else if i == 6 {} else if i == 7 {} else if i == 8 {} else {}
  }

  /** The "햄" template and its defaults. */
  lemma HamTemplate()
    ensures FindMenu("햄") == Some(MenuTemplate("햄", "위트", "아메리칸치즈",
      ["양상추", "토마토", "피클"], ["허니 머스타드"], "슬라이스 햄"))
  {
    FindMenuExact(MENU[7]);
  }

  /** The advertised list and the reducer's vocabulary disagree in two
      places: "help" is advertised but has no branch, and "set_step" has a
      branch but is not advertised. */
  lemma ActionsVersusReducer()
    ensures "help" in ACTIONS && ParseAction("help").Other?
    ensures ActionName(SetStep) !in ACTIONS
    ensures forall k :: k in KNOWN_KINDS && k != SetStep ==> ActionName(k) in ACTIONS
  {
  }
}
