/**
 * The interface language (src/contexts/LanguageContext.tsx): a table of
 * Russian and English texts per key, the lookup `t` that falls back to the
 * key itself, the language saved in local storage, and the hook that refuses
 * to work outside its provider.
 */
module Language {
  import opened Wrappers

  /** The two interface languages. */
  datatype Lang = Ru | En

  /** The code a language is stored under. */
  function Code(l: Lang): string {
    match l
    case Ru => "ru"
    case En => "en"
  }

  /** One key's texts. */
  datatype Entry = Entry(ru: string, en: string)

  /** The text of an entry in one language. */
  function Pick(e: Entry, l: Lang): string {
    match l
    case Ru => e.ru
    case En => e.en
  }

  /** The translation table, key by key. */
  const Translations: map<string, Entry> := map[
    "appTitle" := Entry("Task Tracker", "Task Tracker"),
    "appSubtitle" := Entry("Управляйте своими задачами эффективно", "Manage your tasks efficiently"),
    "addTask" := Entry("Добавить задачу", "Add Task"),
    "todo" := Entry("К выполнению", "To Do"),
    "inProgress" := Entry("В работе", "In Progress"),
    "done" := Entry("Выполнено", "Done"),
    "noTasks" := Entry("Нет задач", "No tasks"),
    "edit" := Entry("Редактировать", "Edit"),
    "delete" := Entry("Удалить", "Delete"),
    "newTask" := Entry("Новая задача", "New Task"),
    "editTask" := Entry("Редактировать задачу", "Edit Task"),
    "taskTitle" := Entry("Название задачи *", "Task Title *"),
    "taskTitlePlaceholder" := Entry("Введите название задачи", "Enter task title"),
    "taskDescription" := Entry("Описание", "Description"),
    "taskDescriptionPlaceholder" := Entry("Введите описание задачи (необязательно)", "Enter task description (optional)"),
    "taskStatus" := Entry("Статус", "Status"),
    "cancel" := Entry("Отмена", "Cancel"),
    "create" := Entry("Создать", "Create"),
    "save" := Entry("Сохранить", "Save"),
    "markAsDone" := Entry("Отметить как выполненное", "Mark as done"),
    "deleteConfirm" := Entry("Вы уверены, что хотите удалить эту задачу?", "Are you sure you want to delete this task?"),
    "noDescription" := Entry("Нет описания", "No description")
  ]

  /** Every text in the table is non-empty, in both languages. */
  lemma EntriesNonEmpty(key: string, l: Lang)
    requires key in Translations
    ensures Pick(Translations[key], l) != ""
  {
  }

  /**
   * `t(key)`: the key's text in the current language, or the key itself when
   * the table has no text for it (an unknown key, or an empty text).
   */
  function Translate(key: string, l: Lang): (r: string)
    ensures key in Translations ==> r == Pick(Translations[key], l)
    ensures key !in Translations ==> r == key
  {
    if key in Translations then
      EntriesNonEmpty(key, l);
      var text := Pick(Translations[key], l);
      if text != "" then text else key
    else
      key
  }

  /**
   * The saved-language check on mount: only the two codes are accepted;
   * a missing, empty or other value leaves the language as it is.
   */
  function SavedLanguage(saved: Option<string>): (r: Option<Lang>)
    ensures r.Some? <==> saved == Some("ru") || saved == Some("en")
    ensures r.Some? ==> saved == Some(Code(r.value))
  {
    if saved == Some("ru") then Some(Ru)
    else if saved == Some("en") then Some(En)
    else None
  }

  /** Reading back a stored code gives the language that was stored. */
  lemma SavedLanguageRoundTrip(l: Lang)
    ensures SavedLanguage(Some(Code(l))) == Some(l)
  {
  }

  /** The message of the error `useLanguage` throws outside a provider. */
  const OutsideProvider := "useLanguage must be used within LanguageProvider"

  class LanguageProvider {
    var language: Lang
    /** The local-storage slot `language`. */
    var stored: Option<string>

    /** A provider as first rendered: Russian, whatever is stored. */
    constructor (stored: Option<string>)
      ensures language == Ru && this.stored == stored
    {
      language := Ru;
      this.stored := stored;
    }

    /** The effect on mount: a stored code that names a language is adopted. */
    method LoadSaved()
      modifies this`language
      ensures language == match SavedLanguage(stored)
        case Some(saved) => saved
        case None => old(language)
    {
      var saved := SavedLanguage(stored);
      if saved.Some? {
        language := saved.value;
      }
    }

    /** `setLanguage`: switch the language and store its code. */
    method SetLanguage(l: Lang)
      modifies this
      ensures language == l && stored == Some(Code(l))
    {
      language := l;
      stored := Some(Code(l));
    }

    /**
     * `t` of this provider: the key's text in the current language, or the
     * key itself; a non-empty key never renders as the empty string.
     */
    function T(key: string): (r: string)
      reads this
      ensures key in Translations ==> r == Pick(Translations[key], language)
      ensures key !in Translations ==> r == key
      ensures key != "" ==> r != ""
    {
      if key in Translations then
        EntriesNonEmpty(key, language);
        Translate(key, language)
      else
        Translate(key, language)
    }
  }

  /** A language chosen with `setLanguage` is the one the next page load starts in. */
  method ChooseThenReload(stored: Option<string>, l: Lang) returns (restored: Lang)
    ensures restored == l
  {
    var provider := new LanguageProvider(stored);
    provider.LoadSaved();
    provider.SetLanguage(l);
    var next := new LanguageProvider(provider.stored);
    next.LoadSaved();
    restored := next.language;
  }

  /** `useLanguage`: the provider's value, or the error it throws without one. */
  function UseLanguage(context: Option<LanguageProvider>): (r: Result<LanguageProvider, string>)
    ensures r.Failure? <==> context.None?
    ensures r.Failure? ==> r.error == OutsideProvider
    ensures r.Success? ==> context == Some(r.value)
  {
    match context
    case Some(provider) => Success(provider)
    case None => Failure(OutsideProvider)
  }
}
