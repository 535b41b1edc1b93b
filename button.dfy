/**
 * The Button component (components/Button.tsx): a pure mapping from its props
 * to whether the element is disabled, whether it shows a spinner or the icon,
 * and its class string.
 */
module Button {
  import opened Types

  datatype Variant = Primary | Secondary | Danger | Ghost
  datatype Size = Sm | Md | Lg

  /**
   * The props the component reads. `None` stands for a prop the caller left
   * out; `hasIcon` records whether an icon node was passed. Children are
   * always rendered and carry no logic, so they are not represented.
   */
  datatype Props = Props(
    variant: Option<Variant>,
    size: Option<Size>,
    hasIcon: bool,
    loading: Option<bool>,
    className: Option<string>,
    disabled: Option<bool>)

  /** What the component renders. */
  datatype Rendered = Rendered(
    className: string,
    disabled: bool,
    spinner: bool,
    icon: bool,
    children: bool)

  const BaseStyles: string := "inline-flex items-center justify-center font-medium transition-all duration-200 focus:outline-none focus:ring-2 focus:ring-offset-2 focus:ring-offset-zinc-950 disabled:opacity-50 disabled:cursor-not-allowed rounded-md"

  function VariantClass(v: Variant): string
  {
    match v
    case Primary => "bg-indigo-600 hover:bg-indigo-500 text-white shadow-[0_0_20px_rgba(79,70,229,0.3)] border border-transparent focus:ring-indigo-500"
    case Secondary => "bg-white/5 hover:bg-white/10 text-zinc-200 border border-white/10 hover:border-white/20 focus:ring-zinc-500"
    case Danger => "bg-red-500/10 hover:bg-red-500/20 text-red-400 border border-red-500/20 hover:border-red-500/30 focus:ring-red-500"
    case Ghost => "bg-transparent hover:bg-white/5 text-zinc-400 hover:text-zinc-200 focus:ring-zinc-500"
  }

  function SizeClass(s: Size): string
  {
    match s
    case Sm => "text-xs px-3 py-1.5 gap-1.5"
    case Md => "text-sm px-4 py-2 gap-2"
    case Lg => "text-base px-6 py-3 gap-2.5"
  }

  /** JavaScript truthiness of an optional boolean prop. */
  predicate Truthy(b: Option<bool>) { b == Some(true) }

  /** The props after destructuring, with the defaults filled in. */
  datatype Resolved = Resolved(variant: Variant, size: Size, className: string, hasIcon: bool, loading: bool, disabled: bool)

  /** Destructuring with defaults: variant primary, size md, className empty. */
  function Resolve(p: Props): (r: Resolved)
    ensures p.variant.None? ==> r.variant == Primary
    ensures p.size.None? ==> r.size == Md
    ensures p.className.None? ==> r.className == ""
    ensures p.variant.Some? ==> r.variant == p.variant.value
    ensures p.size.Some? ==> r.size == p.size.value
    ensures p.className.Some? ==> r.className == p.className.value
  {
    Resolved(
      if p.variant.Some? then p.variant.value else Primary,
      if p.size.Some? then p.size.value else Md,
      if p.className.Some? then p.className.value else "",
      p.hasIcon, Truthy(p.loading), Truthy(p.disabled))
  }

  function Render(p: Props): (r: Rendered)
    ensures r.disabled <==> Truthy(p.disabled) || Truthy(p.loading)
    ensures r.spinner <==> Truthy(p.loading)
    ensures r.icon <==> p.hasIcon && !Truthy(p.loading)
    ensures !(r.spinner && r.icon)
    ensures r.spinner ==> r.disabled
    ensures r.children
    ensures r.className == Spaced(BaseStyles, VariantClass(Resolve(p).variant), SizeClass(Resolve(p).size), Resolve(p).className)
  {
    Draw(Resolve(p))
  }

  /** The element drawn for resolved props. */
  function Draw(q: Resolved): Rendered
  {
    Rendered(
      Spaced(BaseStyles, VariantClass(q.variant), SizeClass(q.size), q.className),
      q.disabled || q.loading,
      q.loading,
      !q.loading && q.hasIcon,
      true)
  }

  /** Four class lists joined by single spaces, as the template literal does. */
  function Spaced(a: string, b: string, c: string, d: string): string
  {
    a + " " + b + " " + c + " " + d
  }

  /** Each part of a `Spaced` string can be read back at its position. */
  lemma SpacedLayout(a: string, b: string, c: string, d: string)
    ensures var s := Spaced(a, b, c, d);
      var k := |a| + 1 + |b| + 1;
      && |s| == k + |c| + 1 + |d|
      && s[..|a|] == a && s[|a|] == ' '
      && s[|a| + 1..|a| + 1 + |b|] == b && s[k - 1] == ' '
      && s[k..k + |c|] == c && s[k + |c|] == ' '
      && s[k + |c| + 1..] == d
  {
    var s := Spaced(a, b, c, d);
    var k := |a| + 1 + |b| + 1;
    assert s == a + " " + b + " " + c + " " + d;
    assert s[..|a|] == a;
    assert s[|a| + 1..|a| + 1 + |b|] == b;
    assert s[k..k + |c|] == c;
    assert s[k + |c| + 1..] == d;
  }

  /** Leaving a prop out renders exactly as passing its default. */
  lemma DefaultProps(p: Props)
    ensures Resolve(p.(variant := None)) == Resolve(p.(variant := Some(Primary)))
    ensures Resolve(p.(size := None)) == Resolve(p.(size := Some(Md)))
    ensures Resolve(p.(className := None)) == Resolve(p.(className := Some("")))
    ensures Resolve(p.(disabled := None)) == Resolve(p.(disabled := Some(false)))
    ensures Resolve(p.(loading := None)) == Resolve(p.(loading := Some(false)))
  {
  }

  /** A loading button is disabled whatever its `disabled` prop says. */
  lemma LoadingBlocksClicks(p: Props)
    requires Truthy(p.loading)
    ensures Render(p).disabled && Render(p).spinner && !Render(p).icon
  {
  }
}
